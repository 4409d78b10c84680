/** The download reader: the parts of one entry as one stream, for every sequence of buffer sizes. */
module CacheReader {
  import opened Common
  import opened CacheStore

  /** One open part file. A read may be short or fail, and may report the end together with the last bytes. */
  class PartFile {
    const data: Bytes
    var pos: nat

    ghost predicate Valid()
      reads this
    {
      pos <= |data|
    }

    constructor (data: Bytes)
      ensures Valid() && this.data == data && pos == 0
    {
      this.data, pos := data, 0;
    }

    method Read(b: array<Byte>, want: nat, early: bool, fault: bool) returns (n: nat, end: bool)
      requires Valid()
      modifies this, b
      ensures Valid() && n <= b.Length && pos == old(pos) + n && b[..n] == data[old(pos)..pos]
      ensures end ==> pos == |data| && !fault
      ensures n == 0 && b.Length > 0 ==> end || fault
    {
      n := |data| - pos;
      if b.Length < n { n := b.Length; }
      if 0 < want < n { n := want; }
      for i := 0 to n
        modifies b
        invariant forall k | 0 <= k < i :: b[k] == data[pos + k]
      {
        b[i] := data[pos + i];
      }
      assert b[..n] == data[pos..pos + n];
      pos := pos + n;
      end := !fault && pos == |data| && b.Length > 0 && (n == 0 || early);
    }
  }

  lemma SplitAt(data: Bytes, p: nat, q: nat, tail: Bytes)
    requires p <= q <= |data|
    ensures data[p..] + tail == data[p..q] + (data[q..] + tail)
    ensures q == |data| ==> data[q..] + tail == tail
  {}

  datatype ReadResult = Data(n: nat) | EndOfStream | Failed(n: nat)

  class PartsReader {
    const folder: Folder
    const partCount: nat
    var idx: nat
    var cur: PartFile?

    ghost predicate Valid()
      reads this, cur
    {
      && idx <= partCount
      && (cur != null ==> cur.Valid() && idx < partCount && idx in folder && cur.data == folder[idx])
    }

    ghost predicate Complete() {
      forall i | 0 <= i < partCount :: i in folder
    }

    /** What is still to be read. */
    ghost function Rest(): Bytes
      requires Valid() && Complete()
      reads this, cur
    {
      if cur == null then Concat(folder, idx, partCount)
      else cur.data[cur.pos..] + Concat(folder, idx + 1, partCount)
    }

    constructor (folder: Folder, partCount: nat)
      ensures Valid() && this.folder == folder && this.partCount == partCount && cur == null
      ensures Complete() ==> Rest() == Concat(folder, 0, partCount)
    {
      this.folder, this.partCount, idx, cur := folder, partCount, 0, null;
    }

    /**
     * A read delivers a prefix of the rest; only the true end ends the stream. `fault` says which of the
     * calls to the file system fail; a missing file fails too.
     */
    method Read(b: array<Byte>, want: nat, early: bool, fault: nat -> bool) returns (r: ReadResult)
      requires Valid()
      modifies this, cur, b
      ensures Valid() && (cur == old(cur) || cur == null || fresh(cur))
      ensures r.Failed? && Complete() ==> exists c :: fault(c)
      ensures Complete() && !r.EndOfStream? ==> r.n <= b.Length && old(Rest()) == b[..r.n] + Rest()
      ensures r == Data(0) ==> b.Length == 0
      ensures Complete() && r.EndOfStream? ==> old(Rest()) == [] && Rest() == []
    {
      var calls := 0;
      while true
        modifies this, cur, b
        invariant Valid() && (cur == old(cur) || cur == null || fresh(cur))
        invariant Complete() ==> Rest() == old(Rest())
        decreases partCount - idx
      {
        if cur == null {
          if idx >= partCount { return EndOfStream; }
          if idx !in folder || fault(calls) {
            return Failed(0);
          }
          calls := calls + 1;
          Open();
        }
        var n, end := ReadCurrent(b, want, early, fault(calls));
        if fault(calls) { return Failed(n); }
        if !end { return Data(n); }
        if n > 0 { return Data(n); }
        calls := calls + 1;
      }
    }

    method Open()
      requires Valid() && cur == null && idx < partCount && idx in folder
      modifies this
      ensures Valid() && cur != null && fresh(cur) && idx == old(idx) && (Complete() ==> Rest() == old(Rest()))
    {
      cur := new PartFile(folder[idx]);
    }

    /** Read from the open part; at its end, close it and move to the next. */
    method ReadCurrent(b: array<Byte>, want: nat, early: bool, fault: bool) returns (n: nat, end: bool)
      requires Valid() && cur != null
      modifies this, cur, b
      ensures Valid() && n <= b.Length
      ensures cur == (if end then null else old(cur)) && idx == old(idx) + if end then 1 else 0
      ensures Complete() ==> old(Rest()) == b[..n] + Rest()
      ensures end ==> !fault
      ensures n == 0 && b.Length > 0 ==> end || fault
    {
      ghost var data, from := cur.data, cur.pos;
      ghost var tail := if Complete() then Concat(folder, idx + 1, partCount) else [];
      n, end := cur.Read(b, want, early, fault);
      SplitAt(data, from, cur.pos, tail);
      if end {
        cur := null;
        idx := idx + 1;
      }
    }
  }

  /** The reader got all of it, or a prefix of it and an error that came from the file system. */
  ghost predicate Delivered(content: Bytes, failed: bool, all: Bytes, faults: (nat, nat) -> bool) {
    && content <= all && (failed || content == all)
    && (failed ==> exists k, c :: faults(k, c))
  }

  /** Draining with any buffer sizes, any short reads and early ends yields exactly the stored parts. */
  method ReadAll(folder: Folder, partCount: nat, sizes: nat -> nat, wants: nat -> nat, early: nat -> bool,
                 faults: (nat, nat) -> bool) returns (content: Bytes, failed: bool)
    requires forall i | 0 <= i < partCount :: i in folder
    requires forall k :: sizes(k) > 0
    ensures Delivered(content, failed, Concat(folder, 0, partCount), faults)
  {
    var reader := new PartsReader(folder, partCount);
    content, failed := [], false;
    var k := 0;
    while true
      invariant fresh(reader) && reader.Valid() && reader.Complete()
      invariant reader.partCount == partCount && reader.folder == folder
      invariant reader.cur == null || fresh(reader.cur)
      invariant !failed && Concat(folder, 0, partCount) == content + reader.Rest()
      decreases |reader.Rest()|
    {
      var b := new Byte[sizes(k)];
      var r := reader.Read(b, wants(k), early(k), (c: nat) => faults(k, c));
      if r.EndOfStream? { return; }
      Regroup(content, b[..r.n], reader.Rest());
      content := content + b[..r.n];
      if r.Failed? {
        ghost var c :| faults(k, c);
        return content, true;
      }
      k := k + 1;
    }
  }
}
