/**
 The index of a keyed record file, and its sidecar file (runtime/rt_file.c).

 An entry gives a record's key and where its bytes are in the data file.  The
 sidecar holds the entries in the order of their offsets: the magic, the number
 of entries, then each entry's key length, key, offset and length.
 */
module KeyedIndex {

  type Byte = b: int | 0 <= b < 256
  type Bytes = seq<Byte>

  const B63: int := 0x8000_0000_0000_0000
  const B64: int := 0x1_0000_0000_0000_0000
  const MAXKEY: int := 1024
  const MAGIC: Bytes := [80, 76, 73, 75, 73, 88]  // "PLIKIX"

  datatype Entry = Entry(key: Bytes, off: int, len: int)

  // ---------------------------------------------------------------------
  // A well-formed index
  // ---------------------------------------------------------------------

  predicate InFile(e: Entry, size: int) { 0 <= e.off && 0 < e.len && e.off + e.len <= size }

  predicate Apart(a: Entry, b: Entry) { a.key != b.key && (a.off + a.len <= b.off || b.off + b.len <= a.off) }

  function TotalLen(ent: seq<Entry>): int {
    if ent == [] then 0 else TotalLen(ent[..|ent| - 1]) + ent[|ent| - 1].len
  }

  /** The records lie in the file, are pairwise apart and have distinct keys. */
  ghost predicate Good(ent: seq<Entry>, size: int) {
    AllInFile(ent, size) && AllApart(ent) && TotalLen(ent) <= size < B63
  }

  ghost predicate AllInFile(ent: seq<Entry>, size: int) {
    forall i :: 0 <= i < |ent| ==> InFile(ent[i], size)
  }

  ghost predicate AllApart(ent: seq<Entry>) {
    forall i, j {:trigger Apart(ent[i], ent[j])} :: 0 <= i < |ent| && 0 <= j < |ent| && i != j ==> Apart(ent[i], ent[j])
  }

  lemma FindUnique(ent: seq<Entry>, i: nat)
    requires AllApart(ent) && i < |ent|
    ensures Find(ent, ent[i].key) == i
  {
    var r := Find(ent, ent[i].key);
    assert r != i ==> Apart(ent[r], ent[i]);
  }

  /** The index of the key, or -1. */
  function Find(ent: seq<Entry>, key: Bytes): (r: int)
    ensures -1 <= r < |ent|
    ensures r >= 0 ==> ent[r].key == key
    ensures r == -1 ==> forall i :: 0 <= i < |ent| ==> ent[i].key != key
  {
    if ent == [] then -1
    else
      var r := Find(ent[..|ent| - 1], key);
      if r >= 0 then r else if ent[|ent| - 1].key == key then |ent| - 1 else -1
  }

  /** The file as its user sees it. */
  ghost function View(ent: seq<Entry>, data: Bytes): (m: map<Bytes, Bytes>)
    requires Good(ent, |data|)
    ensures m.Keys == Keys(ent)
  {
    map k | k in Keys(ent) :: Record(ent[Find(ent, k)], data)
  }

  lemma ViewAt(ent: seq<Entry>, data: Bytes, i: nat)
    requires Good(ent, |data|) && i < |ent|
    ensures ent[i].key in View(ent, data) && View(ent, data)[ent[i].key] == Record(ent[i], data)
  {
    FindUnique(ent, i);
  }

  ghost function Keys(ent: seq<Entry>): (r: set<Bytes>)
    ensures forall i :: 0 <= i < |ent| ==> ent[i].key in r
    ensures forall k :: k in r ==> exists i :: 0 <= i < |ent| && ent[i].key == k
  {
    set i | 0 <= i < |ent| :: ent[i].key
  }

  /** a shows nothing that b does not show. */
  ghost predicate SubMap(a: map<Bytes, Bytes>, b: map<Bytes, Bytes>) {
    forall k :: k in a ==> k in b && a[k] == b[k]
  }

  function Record(e: Entry, data: Bytes): Bytes
    requires InFile(e, |data|)
  {
    data[e.off..e.off + e.len]
  }

  /** A map is the view if it agrees with every entry and has no other key. */
  lemma ViewIs(ent: seq<Entry>, data: Bytes, m: map<Bytes, Bytes>)
    requires Good(ent, |data|)
    requires forall i :: 0 <= i < |ent| ==> ent[i].key in m && m[ent[i].key] == Record(ent[i], data)
    requires forall k :: k in m ==> k in Keys(ent)
    ensures View(ent, data) == m
  {
    var v := View(ent, data);
    forall k | k in m ensures k in v && v[k] == m[k] {
      var i :| 0 <= i < |ent| && ent[i].key == k;
      ViewAt(ent, data, i);
    }
    forall k | k in v ensures k in m {
      var i :| 0 <= i < |ent| && ent[i].key == k;
    }
  }

  lemma TotalSnoc(ent: seq<Entry>, e: Entry)
    ensures TotalLen(ent + [e]) == TotalLen(ent) + e.len
  {
    assert (ent + [e])[..|ent|] == ent;
  }

  lemma {:induction false} TotalRemove(ent: seq<Entry>, i: nat)
    requires i < |ent|
    ensures TotalLen(ent[..i] + ent[i + 1..]) == TotalLen(ent) - ent[i].len
    decreases |ent|
  {
    var n := |ent| - 1;
    if i == n {
      assert ent[..i] + ent[i + 1..] == ent[..n];
    } else {
      TotalRemove(ent[..n], i);
      var r := ent[..n][..i] + ent[..n][i + 1..];
      assert ent[..i] + ent[i + 1..] == r + [ent[n]];
      TotalSnoc(r, ent[n]);
    }
  }

  lemma {:induction false} CountBelow(ent: seq<Entry>, size: int)
    requires forall i :: 0 <= i < |ent| ==> ent[i].len > 0
    ensures |ent| <= TotalLen(ent)
  {
    if ent != [] { CountBelow(ent[..|ent| - 1], size); }
  }

  // ---------------------------------------------------------------------
  // WRITE, REWRITE and DELETE on the file's contents
  // ---------------------------------------------------------------------

  /** The record goes to the end of the file. */
  lemma WriteGood(ent: seq<Entry>, size: int, key: Bytes, n: int)
    requires Good(ent, size) && Find(ent, key) == -1 && n > 0 && size + n < B63
    ensures Good(ent + [Entry(key, size, n)], size + n)
  {
    var e := Entry(key, size, n);
    var ent' := ent + [e];
    TotalSnoc(ent, e);
    forall i, j | 0 <= i < |ent'| && 0 <= j < |ent'| && i != j ensures Apart(ent'[i], ent'[j]) {
      assert i < |ent| && j < |ent| ==> Apart(ent[i], ent[j]);
    }
  }

  lemma RecordBefore(data: Bytes, rec: Bytes, x: Entry)
    requires InFile(x, |data|)
    ensures Record(x, data + rec) == Record(x, data)
  {
  }

  lemma RecordAtEnd(data: Bytes, rec: Bytes, e: Entry)
    requires e.off == |data| && e.len == |rec| && |rec| > 0
    ensures Record(e, data + rec) == rec
  {
  }

  lemma WriteRefines(ent: seq<Entry>, data: Bytes, key: Bytes, rec: Bytes)
    requires Good(ent, |data|) && Find(ent, key) == -1 && |rec| > 0 && |data| + |rec| < B63
    ensures var ent', data' := ent + [Entry(key, |data|, |rec|)], data + rec;
      Good(ent', |data'|) && View(ent', data') == View(ent, data)[key := rec]
  {
    var e := Entry(key, |data|, |rec|);
    var ent', data' := ent + [e], data + rec;
    WriteGood(ent, |data|, key, |rec|);
    var m := View(ent, data)[key := rec];
    forall i | 0 <= i < |ent'| ensures ent'[i].key in m && m[ent'[i].key] == Record(ent'[i], data') {
      if i < |ent| {
        ViewAt(ent, data, i);
        RecordBefore(data, rec, ent[i]);
      } else {
        RecordAtEnd(data, rec, e);
      }
    }
    forall k | k in m ensures k in Keys(ent') {
      if k == key { assert ent'[|ent|].key == key; }
      else { var i :| 0 <= i < |ent| && ent[i].key == k; assert ent'[i].key == k; }
    }
    ViewIs(ent', data', m);
  }

  function Overwrite(data: Bytes, off: nat, rec: Bytes): Bytes
    requires off + |rec| <= |data|
  {
    data[..off] + rec + data[off + |rec|..]
  }

  lemma RecordElsewhere(data: Bytes, rec: Bytes, e: Entry, x: Entry)
    requires InFile(e, |data|) && InFile(x, |data|) && Apart(e, x) && |rec| == e.len
    ensures Record(x, Overwrite(data, e.off, rec)) == Record(x, data)
  {
    var d := Overwrite(data, e.off, rec);
    assert |d| == |data|;
    forall i | x.off <= i < x.off + x.len ensures d[i] == data[i] { }
  }

  lemma RewriteRefines(ent: seq<Entry>, data: Bytes, key: Bytes, rec: Bytes)
    requires Good(ent, |data|) && Find(ent, key) >= 0 && ent[Find(ent, key)].len == |rec|
    ensures var data' := Overwrite(data, ent[Find(ent, key)].off, rec);
      |data'| == |data| && View(ent, data') == View(ent, data)[key := rec]
  {
    var k := Find(ent, key);
    var e := ent[k];
    var data' := Overwrite(data, e.off, rec);
    var m := View(ent, data)[key := rec];
    forall i | 0 <= i < |ent| ensures ent[i].key in m && m[ent[i].key] == Record(ent[i], data') {
      if i == k { assert Record(e, data') == rec; }
      else { assert Apart(e, ent[i]); ViewAt(ent, data, i); RecordElsewhere(data, rec, e, ent[i]); }
    }
    forall x | x in m ensures x in Keys(ent) {
      if x == key { assert ent[k].key == key; }
    }
    ViewIs(ent, data', m);
  }

  /** The bytes without those of the record. */
  function CutOut(data: Bytes, off: nat, size: nat): Bytes
    requires off + size <= |data|
  {
    data[..off] + data[off + size..]
  }

  function Rebase(e: Entry, off: int, size: int): Entry {
    if e.off >= off + size then e.(off := e.off - size) else e
  }

  /** Where entry i of the shortened index comes from. */
  function From(i: int, k: int): int { if i < k then i else i + 1 }

  /** The entries without entry k, moved down where they follow it. */
  function Removed(ent: seq<Entry>, k: nat): (r: seq<Entry>)
    requires k < |ent|
    ensures |r| == |ent| - 1
    ensures forall i :: 0 <= i < |r| ==> r[i].key == ent[From(i, k)].key
  {
    seq(|ent| - 1, i requires 0 <= i < |ent| - 1 => Rebase(ent[From(i, k)], ent[k].off, ent[k].len))
  }

  lemma RebaseRecord(data: Bytes, e: Entry, x: Entry)
    requires InFile(e, |data|) && InFile(x, |data|) && Apart(e, x)
    ensures var x', d := Rebase(x, e.off, e.len), CutOut(data, e.off, e.len);
      InFile(x', |d|) && Record(x', d) == Record(x, data)
  {
    var x', d := Rebase(x, e.off, e.len), CutOut(data, e.off, e.len);
    var r, r' := Record(x, data), Record(x', d);
    forall i | 0 <= i < |r| ensures r'[i] == r[i] {
      assert r[i] == data[x.off + i] && r'[i] == d[x'.off + i];
    }
  }

  lemma RebaseApart(e: Entry, a: Entry, b: Entry)
    requires Apart(e, a) && Apart(e, b) && Apart(a, b) && e.len > 0 && a.len > 0 && b.len > 0
    ensures Apart(Rebase(a, e.off, e.len), Rebase(b, e.off, e.len))
  {
  }

  lemma {:induction false} TotalSame(a: seq<Entry>, b: seq<Entry>)
    requires |a| == |b| && forall i :: 0 <= i < |a| ==> a[i].len == b[i].len
    ensures TotalLen(a) == TotalLen(b)
  {
    if a != [] { TotalSame(a[..|a| - 1], b[..|b| - 1]); }
  }

  lemma RemovedAt(ent: seq<Entry>, data: Bytes, k: nat, i: nat)
    requires AllInFile(ent, |data|) && AllApart(ent) && k < |ent| && i < |ent| - 1
    ensures var e, x, d := ent[k], ent[From(i, k)], CutOut(data, ent[k].off, ent[k].len);
      && Apart(e, x) && Removed(ent, k)[i] == Rebase(x, e.off, e.len)
      && InFile(Removed(ent, k)[i], |d|) && Record(Removed(ent, k)[i], d) == Record(x, data)
  {
    assert Apart(ent[k], ent[From(i, k)]);
    RebaseRecord(data, ent[k], ent[From(i, k)]);
  }

  lemma RemovedApart(ent: seq<Entry>, data: Bytes, k: nat)
    requires AllInFile(ent, |data|) && AllApart(ent) && k < |ent|
    ensures AllApart(Removed(ent, k))
  {
    var r := Removed(ent, k);
    forall i, j | 0 <= i < |r| && 0 <= j < |r| && i != j ensures Apart(r[i], r[j]) {
      RemovedAt(ent, data, k, i);
      RemovedAt(ent, data, k, j);
      assert Apart(ent[From(i, k)], ent[From(j, k)]);
      RebaseApart(ent[k], ent[From(i, k)], ent[From(j, k)]);
    }
  }

  lemma RemovedTotal(ent: seq<Entry>, k: nat)
    requires k < |ent|
    ensures TotalLen(Removed(ent, k)) == TotalLen(ent) - ent[k].len
  {
    var a, b := Removed(ent, k), ent[..k] + ent[k + 1..];
    TotalRemove(ent, k);
    forall i | 0 <= i < |a| ensures a[i].len == b[i].len {
      RemovedLen(ent, k, i);
    }
    TotalSame(a, b);
  }

  lemma RemovedLen(ent: seq<Entry>, k: nat, i: nat)
    requires k < |ent| && i < |ent| - 1
    ensures Removed(ent, k)[i].len == (ent[..k] + ent[k + 1..])[i].len
  {
  }

  lemma RemovedGood(ent: seq<Entry>, data: Bytes, k: nat)
    requires Good(ent, |data|) && k < |ent|
    ensures Good(Removed(ent, k), |CutOut(data, ent[k].off, ent[k].len)|)
  {
    RemovedTotal(ent, k);
    RemovedApart(ent, data, k);
    forall i | 0 <= i < |ent| - 1 ensures InFile(Removed(ent, k)[i], |CutOut(data, ent[k].off, ent[k].len)|) {
      RemovedAt(ent, data, k, i);
    }
  }

  lemma DeleteRefines(ent: seq<Entry>, data: Bytes, k: nat)
    requires Good(ent, |data|) && k < |ent|
    ensures var ent', data' := Removed(ent, k), CutOut(data, ent[k].off, ent[k].len);
      Good(ent', |data'|) && View(ent', data') == View(ent, data) - {ent[k].key}
  {
    var e, r, d := ent[k], Removed(ent, k), CutOut(data, ent[k].off, ent[k].len);
    RemovedGood(ent, data, k);
    var m := View(ent, data) - {e.key};
    forall i | 0 <= i < |r| ensures r[i].key in m && m[r[i].key] == Record(r[i], d) {
      RemovedAt(ent, data, k, i);
      ViewAt(ent, data, From(i, k));
    }
    forall key | key in m ensures key in Keys(r) {
      var x :| 0 <= x < |ent| && ent[x].key == key;
      RemovedKey(ent, k, x);
    }
    ViewIs(r, d, m);
  }

  lemma RemovedKey(ent: seq<Entry>, k: nat, x: nat)
    requires k < |ent| && x < |ent| && x != k
    ensures ent[x].key in Keys(Removed(ent, k))
  {
    assert Removed(ent, k)[if x < k then x else x - 1].key == ent[x].key;
  }

  // ---------------------------------------------------------------------
  // The sidecar
  // ---------------------------------------------------------------------

  /** A long long in n bytes, lowest first. */
  function LE(x: nat, n: nat): (r: Bytes)
    ensures |r| == n
  {
    if n == 0 then [] else [x % 256] + LE(x / 256, n - 1)
  }

  function UnLE(b: Bytes): nat {
    if b == [] then 0 else b[0] + 256 * UnLE(b[1..])
  }

  function Pow256(n: nat): nat { if n == 0 then 1 else 256 * Pow256(n - 1) }

  lemma {:induction false} UnLEofLE(x: nat, n: nat)
    requires x < Pow256(n)
    ensures UnLE(LE(x, n)) == x
    decreases n
  {
    if n > 0 {
      UnLEofLE(x / 256, n - 1);
      assert LE(x, n)[1..] == LE(x / 256, n - 1);
    }
  }

  function I64(x: nat): (r: Bytes)
    ensures |r| == 8
  {
    LE(x, 8)
  }

  /** A long long read from position p. */
  function GetI64(b: Bytes, p: nat): int
    requires p + 8 <= |b|
  {
    var u := UnLE(b[p..p + 8]);
    if u < B63 then u else u - B64
  }

  lemma I64Back(pre: Bytes, x: nat, post: Bytes)
    requires x < B63
    ensures GetI64(pre + I64(x) + post, |pre|) == x
  {
    var b, p := pre + I64(x) + post, |pre|;
    assert b[p..p + 8] == I64(x);
    assert Pow256(8) == B64 by { assert Pow256(4) == 0x1_0000_0000; assert Pow256(6) == 256 * 256 * Pow256(4); }
    UnLEofLE(x, 8);
  }

  function EncodeEntry(e: Entry): Bytes
    requires e.off >= 0 && e.len >= 0
  {
    I64(|e.key|) + e.key + I64(e.off) + I64(e.len)
  }

  function EncodeEntries(ent: seq<Entry>): Bytes
    requires forall i :: 0 <= i < |ent| ==> ent[i].off >= 0 && ent[i].len >= 0
  {
    if ent == [] then [] else EncodeEntry(ent[0]) + EncodeEntries(ent[1..])
  }

  /** The next entry at p, if it is whole and its key is not too long. */
  predicate EntryAt(b: Bytes, p: nat) {
    && p + 8 <= |b| && 0 <= GetI64(b, p) <= MAXKEY && p + 8 + GetI64(b, p) + 16 <= |b|
  }

  function GetEntry(b: Bytes, p: nat): Entry
    requires EntryAt(b, p)
  {
    var n := GetI64(b, p);
    Entry(b[p + 8..p + 8 + n], GetI64(b, p + 8 + n), GetI64(b, p + 16 + n))
  }

  /** Up to n entries from p on; the first one that cannot be read ends the list. */
  function DecodeEntries(b: Bytes, p: nat, n: int): seq<Entry>
    decreases n
  {
    if n <= 0 || !EntryAt(b, p) then []
    else [GetEntry(b, p)] + DecodeEntries(b, p + 24 + GetI64(b, p), n - 1)
  }

  /** What kix_load makes of a sidecar. */
  function Decode(b: Bytes): seq<Entry> {
    if |b| < 14 || b[..6] != MAGIC then [] else DecodeEntries(b, 14, GetI64(b, 6))
  }

  /** The entries before the first one with a key too long to be loaded. */
  function Loadable(ent: seq<Entry>): (r: seq<Entry>)
    ensures |r| <= |ent|
  {
    if ent == [] || |ent[0].key| > MAXKEY then [] else [ent[0]] + Loadable(ent[1..])
  }

  lemma {:induction false} LoadablePrefix(ent: seq<Entry>)
    ensures Loadable(ent) <= ent
    ensures forall i :: 0 <= i < |Loadable(ent)| ==> |ent[i].key| <= MAXKEY
    ensures |Loadable(ent)| < |ent| ==> |ent[|Loadable(ent)|].key| > MAXKEY
  {
    if ent != [] && |ent[0].key| <= MAXKEY {
      LoadablePrefix(ent[1..]);
      var r := Loadable(ent);
      assert forall i :: 0 <= i < |r| - 1 ==> r[i + 1] == Loadable(ent[1..])[i];
      forall i | 0 <= i < |r| ensures r[i] == ent[i] && |ent[i].key| <= MAXKEY {
        if i > 0 { assert ent[1..][i - 1] == ent[i]; }
      }
    }
  }

  /** The entries come back as they were written, up to the first long key. */
  lemma {:induction false} EntriesBack(pre: Bytes, ent: seq<Entry>, size: int)
    requires AllInFile(ent, size) && size < B63 && forall i :: 0 <= i < |ent| ==> |ent[i].key| < B63
    ensures DecodeEntries(pre + EncodeEntries(ent), |pre|, |ent|) == Loadable(ent)
    decreases |ent|
  {
    if ent != [] {
      EntryBack(pre, ent[0], EncodeEntries(ent[1..]), size);
      Regroup(pre, EncodeEntry(ent[0]), EncodeEntries(ent[1..]));
      if |ent[0].key| <= MAXKEY {
        EntriesBack(pre + EncodeEntry(ent[0]), ent[1..], size);
        DecodeNext(pre, ent[0], EncodeEntries(ent[1..]), |ent|, Loadable(ent[1..]));
      }
    }
  }

  lemma Regroup(a: Bytes, b: Bytes, c: Bytes)
    ensures a + (b + c) == a + b + c
  {
  }

  lemma DecodeNext(pre: Bytes, e: Entry, rest: Bytes, n: nat, tail: seq<Entry>)
    requires n > 0 && e.off >= 0 && e.len >= 0
    requires var b := pre + EncodeEntry(e) + rest;
      EntryAt(b, |pre|) && GetEntry(b, |pre|) == e && GetI64(b, |pre|) == |e.key|
    requires DecodeEntries(pre + EncodeEntry(e) + rest, |pre + EncodeEntry(e)|, n - 1) == tail
    ensures DecodeEntries(pre + EncodeEntry(e) + rest, |pre|, n) == [e] + tail
  {
    assert |pre + EncodeEntry(e)| == |pre| + 24 + |e.key|;
  }

  lemma EntryBack(pre: Bytes, e: Entry, rest: Bytes, size: int)
    requires InFile(e, size) && size < B63 && |e.key| < B63
    ensures var b, p := pre + EncodeEntry(e) + rest, |pre|;
      && p + 8 <= |b| && GetI64(b, p) == |e.key|
      && (|e.key| <= MAXKEY <==> EntryAt(b, p)) && (EntryAt(b, p) ==> GetEntry(b, p) == e)
  {
    var b, p, n := pre + EncodeEntry(e) + rest, |pre|, |e.key|;
    assert b == pre + I64(n) + (e.key + I64(e.off) + I64(e.len) + rest);
    I64Back(pre, n, e.key + I64(e.off) + I64(e.len) + rest);
    assert b == (pre + I64(n) + e.key) + I64(e.off) + (I64(e.len) + rest);
    I64Back(pre + I64(n) + e.key, e.off, I64(e.len) + rest);
    assert b == (pre + I64(n) + e.key + I64(e.off)) + I64(e.len) + rest;
    I64Back(pre + I64(n) + e.key + I64(e.off), e.len, rest);
    assert b[p + 8..p + 8 + n] == e.key;
  }

  /** What kix_save writes for the entries in the given order. */
  function Encode(ent: seq<Entry>): Bytes
    requires forall i :: 0 <= i < |ent| ==> ent[i].off >= 0 && ent[i].len >= 0
  {
    MAGIC + I64(|ent|) + EncodeEntries(ent)
  }

  lemma DecodeEncode(ent: seq<Entry>, size: int)
    requires Good(ent, size) && forall i :: 0 <= i < |ent| ==> |ent[i].key| < B63
    ensures Decode(Encode(ent)) == Loadable(ent)
  {
    var b := Encode(ent);
    CountBelow(ent, size);
    assert b == MAGIC + I64(|ent|) + EncodeEntries(ent);
    I64Back(MAGIC, |ent|, EncodeEntries(ent));
    assert b[..6] == MAGIC;
    EntriesBack(MAGIC + I64(|ent|), ent, size);
  }

  // ---------------------------------------------------------------------
  // The order in the sidecar
  // ---------------------------------------------------------------------

  ghost predicate SortedByOff(ent: seq<Entry>) {
    forall i, j :: 0 <= i < j < |ent| ==> ent[i].off <= ent[j].off
  }

  function InsertByOff(e: Entry, l: seq<Entry>): seq<Entry> {
    if l == [] || e.off <= l[0].off then [e] + l else [l[0]] + InsertByOff(e, l[1..])
  }

  /** The entries by offset.  The offsets of a good index differ, so every sort
      gives this order. */
  function SortByOff(l: seq<Entry>): seq<Entry> {
    if l == [] then [] else InsertByOff(l[0], SortByOff(l[1..]))
  }

  lemma {:induction false} InsertAdds(e: Entry, l: seq<Entry>)
    ensures multiset(InsertByOff(e, l)) == multiset(l) + multiset{e}
    decreases |l|
  {
    if l != [] && e.off > l[0].off {
      InsertAdds(e, l[1..]);
      assert l == [l[0]] + l[1..];
    }
  }

  lemma {:induction false} InsertSorts(e: Entry, l: seq<Entry>)
    requires SortedByOff(l)
    ensures SortedByOff(InsertByOff(e, l))
    decreases |l|
  {
    if l != [] && e.off > l[0].off {
      InsertSorts(e, l[1..]);
      InsertAdds(e, l[1..]);
      var r := InsertByOff(e, l[1..]);
      forall j | 0 <= j < |r| ensures l[0].off <= r[j].off {
        assert r[j] in multiset(r);
        assert r[j] in l[1..] || r[j] == e;
      }
      ConsSorted(l[0], r);
    }
  }

  lemma ConsSorted(e: Entry, r: seq<Entry>)
    requires SortedByOff(r) && forall j :: 0 <= j < |r| ==> e.off <= r[j].off
    ensures SortedByOff([e] + r)
  {
  }

  lemma {:induction false} SortSorts(l: seq<Entry>)
    ensures multiset(SortByOff(l)) == multiset(l) && SortedByOff(SortByOff(l))
    decreases |l|
  {
    if l != [] {
      SortSorts(l[1..]);
      assert l == [l[0]] + l[1..];
      InsertSorts(l[0], SortByOff(l[1..]));
      InsertAdds(l[0], SortByOff(l[1..]));
    }
  }

  lemma {:induction false} CountTwo(l: seq<Entry>, i: nat, j: nat)
    requires i < j < |l| && l[i] == l[j]
    ensures multiset(l)[l[i]] >= 2
  {
    var a, b := l[..j], l[j..];
    assert l == a + b;
    assert a[i] in multiset(a) && b[0] in multiset(b);
  }

  lemma {:induction false} CountOne(l: seq<Entry>, x: Entry)
    requires AllApart(l)
    ensures multiset(l)[x] <= 1
    decreases |l|
  {
    if l != [] {
      var n := |l| - 1;
      assert l == l[..n] + [l[n]];
      forall i, j | 0 <= i < n && 0 <= j < n && i != j ensures Apart(l[..n][i], l[..n][j]) { assert Apart(l[i], l[j]); }
      CountOne(l[..n], x);
      forall i | 0 <= i < n ensures l[i] != l[n] { assert Apart(l[i], l[n]); }
      assert l[n] !in l[..n];
    }
  }

  lemma PermApart(a: seq<Entry>, b: seq<Entry>)
    requires AllApart(a) && multiset(a) == multiset(b)
    ensures AllApart(b)
  {
    forall i, j | 0 <= i < |b| && 0 <= j < |b| && i != j ensures Apart(b[i], b[j]) {
      assert b[i] in multiset(a) && b[j] in multiset(a);
      var p :| 0 <= p < |a| && a[p] == b[i];
      var q :| 0 <= q < |a| && a[q] == b[j];
      if b[i] == b[j] {
        CountOne(a, b[i]);
        if i < j { CountTwo(b, i, j); } else { CountTwo(b, j, i); }
      } else {
        assert Apart(a[p], a[q]);
      }
    }
  }

  lemma CancelOne(m: multiset<Entry>, n: multiset<Entry>, x: Entry)
    requires m + multiset{x} == n + multiset{x}
    ensures m == n
  {
    assert m == (m + multiset{x}) - multiset{x};
    assert n == (n + multiset{x}) - multiset{x};
  }

  lemma WithoutOne(a: seq<Entry>, p: nat)
    requires p < |a|
    ensures multiset(a) == multiset(a[..p] + a[p + 1..]) + multiset{a[p]}
  {
    assert a == a[..p] + [a[p]] + a[p + 1..];
  }

  lemma {:induction false} PermTotal(a: seq<Entry>, b: seq<Entry>)
    requires multiset(a) == multiset(b)
    ensures TotalLen(a) == TotalLen(b)
    decreases |b|
  {
    if b == [] {
      assert |multiset(a)| == 0;
    } else {
      var n := |b| - 1;
      assert b == b[..n] + [b[n]];
      assert b[n] in multiset(a);
      var p :| 0 <= p < |a| && a[p] == b[n];
      WithoutOne(a, p);
      CancelOne(multiset(a[..p] + a[p + 1..]), multiset(b[..n]), b[n]);
      PermTotal(a[..p] + a[p + 1..], b[..n]);
      TotalRemove(a, p);
    }
  }

  lemma PermGood(a: seq<Entry>, b: seq<Entry>, size: int)
    requires Good(a, size) && multiset(a) == multiset(b)
    ensures Good(b, size)
  {
    PermApart(a, b);
    PermTotal(a, b);
    forall i | 0 <= i < |b| ensures InFile(b[i], size) {
      assert b[i] in multiset(a);
    }
  }

  lemma PermView(a: seq<Entry>, b: seq<Entry>, data: Bytes)
    requires Good(a, |data|) && Good(b, |data|) && multiset(a) == multiset(b)
    ensures View(a, data) == View(b, data)
  {
    var m := View(a, data);
    forall i | 0 <= i < |b| ensures b[i].key in m && m[b[i].key] == Record(b[i], data) {
      assert b[i] in multiset(a);
      var p :| 0 <= p < |a| && a[p] == b[i];
      ViewAt(a, data, p);
    }
    forall k | k in m ensures k in Keys(b) {
      var p :| 0 <= p < |a| && a[p].key == k;
      assert a[p] in multiset(b);
      var i :| 0 <= i < |b| && b[i] == a[p];
    }
    ViewIs(b, data, m);
  }

  lemma {:induction false} PrefixTotal(a: seq<Entry>, n: nat)
    requires n <= |a| && forall i :: 0 <= i < |a| ==> a[i].len > 0
    ensures TotalLen(a[..n]) <= TotalLen(a)
    decreases |a|
  {
    if n < |a| {
      var l := a[..|a| - 1];
      assert l[..n] == a[..n];
      PrefixTotal(l, n);
    } else {
      assert a[..n] == a;
    }
  }

  lemma PrefixGood(a: seq<Entry>, n: nat, size: int)
    requires Good(a, size) && n <= |a|
    ensures Good(a[..n], size)
  {
    var b := a[..n];
    PrefixTotal(a, n);
    forall i, j | 0 <= i < n && 0 <= j < n && i != j ensures Apart(b[i], b[j]) { assert Apart(a[i], a[j]); }
  }

  /** An index cut short shows only true records; it shows all of them only if
      nothing was cut. */
  lemma PrefixView(a: seq<Entry>, n: nat, data: Bytes)
    requires Good(a, |data|) && n <= |a| && Good(a[..n], |data|)
    ensures SubMap(View(a[..n], data), View(a, data))
    ensures View(a[..n], data) == View(a, data) <==> n == |a|
  {
    var b := a[..n];
    forall k | k in View(b, data) ensures k in View(a, data) && View(a, data)[k] == View(b, data)[k] {
      var i :| 0 <= i < |b| && b[i].key == k;
      ViewAt(b, data, i);
      ViewAt(a, data, i);
    }
    if n < |a| {
      CutKey(a, n);
      ViewAt(a, data, n);
    } else {
      assert b == a;
    }
  }

  lemma CutKey(a: seq<Entry>, n: nat)
    requires AllApart(a) && n < |a|
    ensures a[n].key !in Keys(a[..n])
  {
    forall i | 0 <= i < n ensures a[..n][i].key != a[n].key { assert Apart(a[i], a[n]); }
  }

  /** What is on disk after a save. */
  function Saved(ent: seq<Entry>): Bytes
    requires forall i :: 0 <= i < |ent| ==> ent[i].off >= 0 && ent[i].len >= 0
  {
    SortSorts(ent);
    assert forall i :: 0 <= i < |SortByOff(ent)| ==> SortByOff(ent)[i] in multiset(ent);
    Encode(SortByOff(ent))
  }

  ghost predicate ShortKeys(ent: seq<Entry>) { forall i :: 0 <= i < |ent| ==> |ent[i].key| <= MAXKEY }

  /** Saving and loading gives the file's records back if and only if no key is
      longer than 1024 bytes; with a longer one, some records are lost and the
      others are intact. */
  lemma ReloadExactly(ent: seq<Entry>, data: Bytes)
    requires Good(ent, |data|) && forall i :: 0 <= i < |ent| ==> |ent[i].key| < B63
    ensures var l := Decode(Saved(ent));
      && Good(l, |data|) && ShortKeys(l) && SubMap(View(l, data), View(ent, data))
      && (View(l, data) == View(ent, data) <==> ShortKeys(ent))
  {
    var b := SortByOff(ent);
    SortSorts(ent);
    PermGood(ent, b, |data|);
    PermView(ent, b, data);
    PermShort(ent, b);
    forall i | 0 <= i < |b| ensures |b[i].key| < B63 { assert b[i] in multiset(ent); }
    DecodeEncode(b, |data|);
    LoadableView(b, data);
  }

  lemma LoadableView(b: seq<Entry>, data: Bytes)
    requires Good(b, |data|)
    ensures var l := Loadable(b);
      && Good(l, |data|) && ShortKeys(l) && SubMap(View(l, data), View(b, data))
      && (View(l, data) == View(b, data) <==> ShortKeys(b))
  {
    LoadablePrefix(b);
    var n := |Loadable(b)|;
    assert Loadable(b) == b[..n];
    PrefixGood(b, n, |data|);
    PrefixView(b, n, data);
  }

  lemma PermShort(a: seq<Entry>, b: seq<Entry>)
    requires multiset(a) == multiset(b)
    ensures ShortKeys(a) <==> ShortKeys(b)
  {
    forall i | 0 <= i < |b| && ShortKeys(a) ensures |b[i].key| <= MAXKEY { assert b[i] in multiset(a); }
    forall i | 0 <= i < |a| && ShortKeys(b) ensures |a[i].key| <= MAXKEY { assert a[i] in multiset(b); }
  }
}
