/**
 A keyed record file (runtime/rt_file.c; rules (112) and (113) of TR 25.084):
 WRITE, READ, REWRITE and DELETE by key on CHARACTER records, CLOSE and OPEN.

 The file is the bytes of its data file plus an index, which lives in memory
 while the file is open and in a sidecar file while it is closed.  To its user it
 is a map from keys to records.
 */
module KeyedFile {
  import opened KeyedIndex

  datatype Mode = Closed | Input | Output | Update

  datatype Outcome = Ok | NotOpen | BadKey | SizeChange | IoFailed

  const CHUNK: int := 8192

  lemma {:induction false} DecodedShort(b: Bytes, p: nat, n: int)
    ensures ShortKeys(DecodeEntries(b, p, n))
    decreases n
  {
    if n > 0 && EntryAt(b, p) {
      var rest := DecodeEntries(b, p + 24 + GetI64(b, p), n - 1);
      DecodedShort(b, p + 24 + GetI64(b, p), n - 1);
      var r := DecodeEntries(b, p, n);
      forall i | 0 <= i < |r| ensures |r[i].key| <= MAXKEY {
        if i > 0 { assert r[i] == rest[i - 1]; }
      }
    }
  }

  lemma {:induction false} EncodeSnoc(ent: seq<Entry>, e: Entry)
    requires e.off >= 0 && e.len >= 0 && forall i :: 0 <= i < |ent| ==> ent[i].off >= 0 && ent[i].len >= 0
    ensures EncodeEntries(ent + [e]) == EncodeEntries(ent) + EncodeEntry(e)
    decreases |ent|
  {
    if ent == [] {
      assert (ent + [e])[1..] == [];
    } else {
      assert (ent + [e])[1..] == ent[1..] + [e];
      EncodeSnoc(ent[1..], e);
    }
  }

  /** The key lengths are long longs. */
  ghost predicate KeysFit(ent: seq<Entry>) {
    forall i :: 0 <= i < |ent| ==> |ent[i].key| < B63
  }

  class File {
    var mode: Mode
    var data: Bytes
    var ent: seq<Entry>
    var dirty: bool
    var sidecar: Bytes   // empty: there is none

    ghost predicate Valid()
      reads this
    {
      && (mode == Closed ==> Good(Decode(sidecar), |data|))
      && (mode != Closed ==> Good(ent, |data|) && (!dirty ==> ent == Decode(sidecar)))
      && KeysFit(ent)
    }

    /** The records by key. */
    ghost function Records(): map<Bytes, Bytes>
      requires Valid()
      reads this
    {
      if mode == Closed then View(Decode(sidecar), data) else View(ent, data)
    }

    /** kix_find. */
    method FindKey(key: Bytes) returns (r: int)
      ensures r == Find(ent, key)
    {
      var i := 0;
      while i < |ent|
        invariant 0 <= i <= |ent| && Find(ent[..i], key) == -1
      {
        assert ent[..i + 1][..i] == ent[..i];
        if ent[i].key == key {
          FindStays(ent, i + 1, key);
          return i;
        }
        i := i + 1;
      }
      assert ent[..i] == ent;
      r := -1;
    }

    /** CLOSE: the index goes to the sidecar if it has changed.  The records are all
        there afterwards if and only if no key is longer than 1024 bytes; otherwise
        some are lost, and the others are intact. */
    method Close()
      requires Valid()
      modifies this
      ensures Valid() && mode == Closed && data == old(data)
      ensures old(mode) == Closed ==> Records() == old(Records())
      ensures old(mode) != Closed ==> (Records() == old(Records()) <==> ShortKeys(old(ent)))
      ensures SubMap(Records(), old(Records()))
    {
      if mode != Closed {
        ghost var l := Flush();
        mode := Closed;
        ent := [];
        dirty := false;
      }
    }

    method Flush() returns (ghost l: seq<Entry>)
      requires Good(ent, |data|) && KeysFit(ent) && (!dirty ==> ent == Decode(sidecar))
      modifies this`sidecar
      ensures
        && l == Decode(sidecar) && Good(l, |data|) && SubMap(View(l, data), View(ent, data))
        && (View(l, data) == View(ent, data) <==> ShortKeys(ent))
    {
      if dirty {
        ReloadExactly(ent, data);
        Save();
      } else {
        DecodedIsShort(sidecar);
      }
      l := Decode(sidecar);
    }

    /** kix_save. */
    method Save()
      requires Good(ent, |data|)
      modifies this`sidecar
      ensures sidecar == Saved(ent)
    {
      var copy := SortByOff(ent);
      SortSorts(ent);
      PermGood(ent, copy, |data|);
      var out := MAGIC + I64(|copy|);
      var i := 0;
      assert copy[..0] == [];
      while i < |copy|
        invariant 0 <= i <= |copy|
        invariant AllInFile(copy[..i], |data|) && out == MAGIC + I64(|copy|) + EncodeEntries(copy[..i])
      {
        EncodeSnoc(copy[..i], copy[i]);
        assert copy[..i] + [copy[i]] == copy[..i + 1];
        Regroup(MAGIC + I64(|copy|), EncodeEntries(copy[..i]), EncodeEntry(copy[i]));
        out := out + EncodeEntry(copy[i]);
        i := i + 1;
      }
      assert copy[..i] == copy;
      sidecar := out;
    }

    /** kix_load. */
    method Load()
      modifies this`ent
      ensures ent == Decode(sidecar)
    {
      ent := [];
      if |sidecar| < 14 || sidecar[..6] != MAGIC { return; }
      LoadEntries(14, GetI64(sidecar, 6));
    }

    method LoadEntries(start: nat, count: int)
      requires ent == []
      modifies this`ent
      ensures ent == DecodeEntries(sidecar, start, count)
    {
      ghost var goal := DecodeEntries(sidecar, start, count);
      var p: nat, left := start, count;
      assert ent + goal == goal;
      while left > 0 && EntryAt(sidecar, p)
        invariant ent + DecodeEntries(sidecar, p, left) == goal
        decreases left
      {
        DecodeStep(ent, sidecar, p, left);
        var e := GetEntry(sidecar, p);
        ent := ent + [e];
        p := p + 24 + |e.key|;
        left := left - 1;
      }
      DecodeStop(ent, sidecar, p, left);
    }

    /** OPEN: OUTPUT starts an empty file, INPUT and UPDATE load the index.  The index
        of a file that is open already is dropped, not saved: nothing is lost if it has
        not changed; otherwise the records are what the old sidecar makes of the data. */
    method Open(m: Mode)
      requires Valid() && m != Closed
      modifies this
      ensures mode == m && sidecar == old(sidecar)
      ensures m == Output ==> Valid() && Records() == map[]
      ensures m != Output ==> data == old(data) && ent == Decode(sidecar)
      ensures m != Output && (old(mode) == Closed || !old(dirty)) ==> Valid() && Records() == old(Records())
      ensures m != Output ==> (Valid() <==> Good(Decode(sidecar), |data|))
    {
      mode := m;
      if m == Output {
        data, ent, dirty := [], [], true;
      } else {
        dirty := false;
        Load();
        DecodedIsShort(sidecar);
      }
    }

    /** WRITE ... KEY(k). */
    method Write(key: Bytes, rec: Bytes) returns (r: Outcome)
      requires Valid() && |key| < B63
      modifies this
      ensures Valid() && mode == old(mode) && sidecar == old(sidecar)
      ensures mode == Closed ==> r == NotOpen
      ensures mode != Closed && (rec == [] || key in old(Records())) ==> r == BadKey
      ensures mode != Closed && rec != [] && key !in old(Records()) ==>
        r == if mode == Input || old(|data|) + |rec| >= B63 then IoFailed else Ok
      ensures Records() == if r == Ok then old(Records())[key := rec] else old(Records())
    {
      if mode == Closed { return NotOpen; }
      var k := FindKey(key);
      FoundIff(ent, data, key);
      if rec == [] || k >= 0 { return BadKey; }
      if mode == Input || |data| + |rec| >= B63 { return IoFailed; }
      Append(key, rec);
      r := Ok;
    }

    method Append(key: Bytes, rec: Bytes)
      requires Good(ent, |data|) && KeysFit(ent) && Find(ent, key) == -1
      requires |key| < B63 && rec != [] && |data| + |rec| < B63
      modifies this`ent, this`data, this`dirty
      ensures Good(ent, |data|) && KeysFit(ent) && dirty
      ensures View(ent, data) == old(View(ent, data))[key := rec]
    {
      WriteRefines(ent, data, key, rec);
      ent := ent + [Entry(key, |data|, |rec|)];
      data := data + rec;
      dirty := true;
    }

    /** READ ... KEY(k) into a buffer of len bytes: the bytes it gets. */
    method Read(key: Bytes, len: int) returns (r: Outcome, rec: Bytes)
      requires Valid()
      ensures mode == Closed ==> r == NotOpen
      ensures mode != Closed && (len <= 0 || key !in Records()) ==> r == BadKey
      ensures mode != Closed && len > 0 && key in Records() ==> r == if mode == Output then IoFailed else Ok
      ensures r == Ok ==> key in Records() && rec == if |Records()[key]| < len then Records()[key] else Records()[key][..len]
    {
      rec := [];
      if mode == Closed { return NotOpen, rec; }
      var k := FindKey(key);
      FoundIff(ent, data, key);
      if len <= 0 || k < 0 { return BadKey, rec; }
      if mode == Output { return IoFailed, rec; }
      var rlen := ent[k].len;
      var n := if rlen < len then rlen else len;
      rec := data[ent[k].off..ent[k].off + n];
      ViewAt(ent, data, k);
      r := Ok;
    }

    /** REWRITE ... KEYFROM(k). */
    method Rewrite(key: Bytes, rec: Bytes) returns (r: Outcome)
      requires Valid()
      modifies this`data
      ensures Valid()
      ensures mode == Closed ==> r == NotOpen
      ensures mode != Closed && (rec == [] || key !in old(Records())) ==> r == BadKey
      ensures mode != Closed && rec != [] && key in old(Records()) ==>
        r == if |old(Records())[key]| != |rec| then SizeChange else if mode == Input then IoFailed else Ok
      ensures Records() == if r == Ok then old(Records())[key := rec] else old(Records())
    {
      if mode == Closed { return NotOpen; }
      var k := FindKey(key);
      FoundIff(ent, data, key);
      if rec == [] || k < 0 { return BadKey; }
      ViewAt(ent, data, k);
      if ent[k].len != |rec| { return SizeChange; }
      if mode == Input { return IoFailed; }
      Replace(k, rec);
      r := Ok;
    }

    method Replace(k: nat, rec: Bytes)
      requires Good(ent, |data|) && k < |ent| && ent[k].len == |rec|
      modifies this`data
      ensures Good(ent, |data|) && View(ent, data) == old(View(ent, data))[ent[k].key := rec]
    {
      FindUnique(ent, k);
      RewriteRefines(ent, data, ent[k].key, rec);
      data := Overwrite(data, ent[k].off, rec);
    }

    /** The record is the last one in the data file. */
    ghost predicate IsLast(key: Bytes)
      reads this
    {
      var k := Find(ent, key);
      k >= 0 && ent[k].off + ent[k].len == |data|
    }

    /** DELETE ... KEYFROM(k).  A file opened for OUTPUT can lose its last record only,
        because the others cannot be read to be moved. */
    method Delete(key: Bytes) returns (r: Outcome)
      requires Valid()
      modifies this
      ensures Valid() && mode == old(mode) && sidecar == old(sidecar)
      ensures mode == Closed ==> r == NotOpen
      ensures mode != Closed && key !in old(Records()) ==> r == BadKey
      ensures mode == Update && key in old(Records()) ==> r == Ok
      ensures mode == Input && key in old(Records()) ==> r == IoFailed
      ensures mode == Output && key in old(Records()) ==> r == if old(IsLast(key)) then Ok else IoFailed
      ensures Records() == if r == Ok then old(Records()) - {key} else old(Records())
    {
      if mode == Closed { return NotOpen; }
      var k := FindKey(key);
      FoundIff(ent, data, key);
      if k < 0 { return BadKey; }
      var off, size := ent[k].off, ent[k].len;
      if mode != Update && (off + size < |data| || mode == Input) { return IoFailed; }
      RemoveRecord(k, off, size);
      r := Ok;
    }

    method RemoveRecord(k: nat, off: int, size: int)
      requires Good(ent, |data|) && KeysFit(ent) && k < |ent| && off == ent[k].off && size == ent[k].len
      modifies this`ent, this`data, this`dirty
      ensures Good(ent, |data|) && KeysFit(ent) && dirty
      ensures View(ent, data) == old(View(ent, data)) - {old(ent[k].key)}
    {
      DeleteRefines(ent, data, k);
      RemovedFit(ent, k);
      CloseGap(off, size);
      RemoveEntry(k, off, size);
      dirty := true;
    }

    /** The chunked copy over the record's bytes, and the truncation. */
    method CloseGap(off: int, size: int)
      requires 0 <= off && 0 < size && off + size <= |data|
      modifies this`data
      ensures data == CutOut(old(data), off, size)
    {
      ghost var data0 := data;
      var end, src, dst := |data|, off + size, off;
      while src < end
        invariant dst == src - size && src <= end == |data| && Moved(data0, data, off, size, src)
      {
        var n := if end - src > CHUNK then CHUNK else end - src;
        var buf := data[src..src + n];
        ChunkMoved(data0, data, off, size, src, n);
        data := Overwrite(data, dst, buf);
        src, dst := src + n, dst + n;
      }
      data := data[..dst];
    }

    /** kix_remove and the re-basing of the entries behind. */
    method RemoveEntry(k: nat, off: int, size: int)
      requires k < |ent| && off == ent[k].off && size == ent[k].len
      modifies this`ent
      ensures ent == Removed(old(ent), k)
    {
      ShiftDown(k);
      RebaseAll(off, size);
    }

    method ShiftDown(k: nat)
      requires k < |ent|
      modifies this`ent
      ensures |ent| == old(|ent|) - 1
      ensures forall j :: 0 <= j < |ent| ==> ent[j] == old(ent)[From(j, k)]
    {
      ghost var ent0 := ent;
      var i := k + 1;
      while i < |ent|
        invariant k < i <= |ent| == |ent0|
        invariant ShiftedTo(ent0, ent, k, i - 1)
      {
        ShiftOne(ent0, ent, k, i - 1);
        ent := ent[i - 1 := ent[i]];
        i := i + 1;
      }
      ent := ent[..|ent| - 1];
    }

    method RebaseAll(off: int, size: int)
      modifies this`ent
      ensures |ent| == old(|ent|)
      ensures forall j :: 0 <= j < |ent| ==> ent[j] == Rebase(old(ent[j]), off, size)
    {
      ghost var ent0 := ent;
      var i := 0;
      while i < |ent|
        invariant 0 <= i <= |ent| == |ent0|
        invariant forall j :: 0 <= j < i ==> ent[j] == Rebase(ent0[j], off, size)
        invariant forall j :: i <= j < |ent| ==> ent[j] == ent0[j]
      {
        if ent[i].off >= off + size {
          ent := ent[i := ent[i].(off := ent[i].off - size)];
        }
        i := i + 1;
      }
    }
  }

  /** The bytes up to dst are in place and those from src on untouched. */
  ghost predicate Moved(data0: Bytes, data: Bytes, off: int, size: int, src: int) {
    && 0 <= off && 0 < size && off + size <= src <= |data| == |data0|
    && data[..src - size] == data0[..off] + data0[off + size..src] && data[src..] == data0[src..]
  }

  lemma ChunkMoved(data0: Bytes, data: Bytes, off: int, size: int, src: int, n: int)
    requires Moved(data0, data, off, size, src) && 0 <= n && src + n <= |data|
    ensures Moved(data0, Overwrite(data, src - size, data[src..src + n]), off, size, src + n)
  {
    var buf, dst := data[src..src + n], src - size;
    var after := Overwrite(data, dst, buf);
    assert buf == data0[src..src + n] by { assert data[src..][..n] == buf && data0[src..][..n] == data0[src..src + n]; }
    assert after[..dst + n] == data[..dst] + buf;
    assert after[src + n..] == data[src..][n..];
    assert data0[off + size..src] + data0[src..src + n] == data0[off + size..src + n];
  }

  /** The first n entries are those of the index without entry k, the others still
      the old ones. */
  ghost predicate ShiftedTo(ent0: seq<Entry>, ent: seq<Entry>, k: nat, n: nat) {
    && k <= n < |ent| == |ent0|
    && (forall j :: 0 <= j < n ==> ent[j] == ent0[From(j, k)])
    && (forall j :: n <= j < |ent| ==> ent[j] == ent0[j])
  }

  lemma ShiftOne(ent0: seq<Entry>, ent: seq<Entry>, k: nat, n: nat)
    requires ShiftedTo(ent0, ent, k, n) && n + 1 < |ent|
    ensures ShiftedTo(ent0, ent[n := ent[n + 1]], k, n + 1)
  {
  }

  lemma RemovedFit(ent: seq<Entry>, k: nat)
    requires KeysFit(ent) && k < |ent|
    ensures KeysFit(Removed(ent, k))
  {
    var r := Removed(ent, k);
    forall i | 0 <= i < |r| ensures |r[i].key| < B63 {
      assert r[i].key == ent[From(i, k)].key;
    }
  }

  lemma DecodedIsShort(b: Bytes)
    ensures ShortKeys(Decode(b))
  {
    if |b| >= 14 && b[..6] == MAGIC { DecodedShort(b, 14, GetI64(b, 6)); }
  }

  lemma DecodeStep(acc: seq<Entry>, b: Bytes, p: nat, n: int)
    requires n > 0 && EntryAt(b, p)
    ensures acc + DecodeEntries(b, p, n) == (acc + [GetEntry(b, p)]) + DecodeEntries(b, p + 24 + |GetEntry(b, p).key|, n - 1)
  {
  }

  lemma DecodeStop(acc: seq<Entry>, b: Bytes, p: nat, n: int)
    requires n <= 0 || !EntryAt(b, p)
    ensures acc + DecodeEntries(b, p, n) == acc
  {
  }

  lemma FindStays(ent: seq<Entry>, n: nat, key: Bytes)
    requires n <= |ent| && Find(ent[..n], key) >= 0
    ensures Find(ent, key) == Find(ent[..n], key)
    decreases |ent|
  {
    if n < |ent| {
      var l := ent[..|ent| - 1];
      assert l[..n] == ent[..n];
      FindStays(l, n, key);
    } else {
      assert ent[..n] == ent;
    }
  }

  lemma FoundIff(ent: seq<Entry>, data: Bytes, key: Bytes)
    requires Good(ent, |data|)
    ensures Find(ent, key) >= 0 <==> key in View(ent, data)
  {
    if Find(ent, key) >= 0 { assert ent[Find(ent, key)].key == key; }
  }
}
