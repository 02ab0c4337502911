/** Powers of a base, as far as the fixed-width arithmetic needs them. */
module Powers {

  function Pow(b: nat, k: nat): (r: nat)
    ensures b > 0 ==> r > 0
  {
    if k == 0 then 1 else b * Pow(b, k - 1)
  }

  lemma {:induction false} PowAdd(b: nat, j: nat, k: nat)
    ensures Pow(b, j + k) == Pow(b, j) * Pow(b, k)
    decreases j
  {
    if j > 0 {
      PowAdd(b, j - 1, k);
      assert b * (Pow(b, j - 1) * Pow(b, k)) == (b * Pow(b, j - 1)) * Pow(b, k);
    }
  }

  /** q and r are the quotient and the remainder if they fit. */
  lemma DivModUnique(n: int, d: int, q: int, r: int)
    requires d > 0 && n == q * d + r && 0 <= r < d
    ensures q == n / d && r == n % d
  {
    assert n == (n / d) * d + n % d;
    Separate(n / d - q, d, r - n % d);
  }

  lemma Separate(e: int, d: int, diff: int)
    requires d > 0 && e * d == diff && -d < diff < d
    ensures e == 0 && diff == 0
  {
    Times(e, d);
  }

  lemma Times(e: int, d: int)
    requires d > 0
    ensures (e > 0 ==> e * d >= d) && (e < 0 ==> e * d <= -d)
  {
    if e > 0 { MulMono(1, e, d); }
    if e < 0 { MulMono(1, -e, d); }
  }

  lemma MulMono(a: nat, b: nat, c: nat)
    requires a <= b
    ensures a * c <= b * c
  {
  }

  /** A multiple of d reduces to itself modulo d. */
  lemma ModMultiple(a: int, b: int, c: int, d: int)
    requires d > 0 && a == b + c * d
    ensures a % d == b % d
  {
    DivModUnique(a, d, b / d + c, b % d);
  }

  lemma DivDiv(n: nat, a: nat, b: nat)
    requires a > 0 && b > 0
    ensures a * b > 0 && (n / a) / b == n / (a * b)
  {
    var q := (n / a) / b;
    var r := (n / a) % b;
    MulMono(1, b, a);
    assert n == (q * b + r) * a + n % a;
    assert (q * b + r) * a == q * (a * b) + r * a;
    MulMono(r, b - 1, a);
    DivModUnique(n, a * b, q, r * a + n % a);
  }
}
