/** core/engine/fileshare/handlers.go: the progress counter of a file that many readers or writers share. */
module Counter {
  import opened Files

  datatype Progress = Progress(bytes: nat, total: int, done: bool)

  /** A known size caps what a read past the end reports. */
  function Clamp(total: int, end: nat): (r: nat)
    ensures r <= end && (total >= 0 ==> r <= total) && (total < 0 || end <= total ==> r == end)
  {
    if total >= 0 && end > total then total else end
  }

  function HighWater(total: int, ends: seq<nat>): nat {
    if ends == [] then 0
    else
      var before := HighWater(total, ends[..|ends| - 1]);
      var last := Clamp(total, ends[|ends| - 1]);
      if last > before then last else before
  }

  /** The lock-protected counter; `ends` records every call of advance in the order the lock was taken. */
  class CountingFile {
    const total: int
    var bytes: nat
    ghost var ends: seq<nat>

    ghost predicate Valid()
      reads this
    {
      bytes == HighWater(total, ends)
    }

    constructor (total: int)
      ensures Valid() && this.total == total && ends == [] && bytes == 0
    {
      this.total, bytes, ends := total, 0, [];
    }

    method Advance(end: nat) returns (p: Progress)
      requires Valid()
      modifies this
      ensures Valid() && ends == old(ends) + [end]
      ensures p == Progress(bytes, total, false) && bytes >= old(bytes)
    {
      var e := end;
      if total >= 0 && e > total { e := total; }
      if e > bytes { bytes := e; }
      ends := ends + [end];
      assert ends[..|ends| - 1] == old(ends);
      p := Progress(bytes, total, false);
    }

    method Close() returns (p: Progress)
      requires Valid()
      ensures p == Progress(HighWater(total, ends), if total < 0 then HighWater(total, ends) else total, true)
    {
      var t := total;
      if t < 0 { t := bytes; }
      p := Progress(bytes, t, true);
    }
  }

  /** The counter is the largest capped end seen: at least each of them, and one of them unless none was above 0. */
  lemma {:induction false} HighWaterIsMax(total: int, ends: seq<nat>)
    ensures forall e :: e in ends ==> Clamp(total, e) <= HighWater(total, ends)
    ensures HighWater(total, ends) == 0 || exists e :: e in ends && Clamp(total, e) == HighWater(total, ends)
  {
    if ends != [] {
      var front, last := ends[..|ends| - 1], ends[|ends| - 1];
      HighWaterIsMax(total, front);
      assert ends == front + [last] && last in ends;
      forall e | e in ends ensures Clamp(total, e) <= HighWater(total, ends) { assert e in front || e == last; }
      if HighWater(total, ends) == HighWater(total, front) && HighWater(total, ends) != 0 {
        var e :| e in front && Clamp(total, e) == HighWater(total, front);
        assert e in ends;
      }
    }
  }

  /** Only which pieces arrived matters, not in which order or how often. */
  lemma OrderIrrelevant(total: int, a: seq<nat>, b: seq<nat>)
    requires forall e :: e in a <==> e in b
    ensures HighWater(total, a) == HighWater(total, b)
  {
    HighWaterIsMax(total, a);
    HighWaterIsMax(total, b);
  }

  /** While nothing reaches past a known size, the count is plainly the largest end seen. */
  lemma HighWaterWithin(total: int, ends: seq<nat>)
    requires forall e :: e in ends ==> total < 0 || e <= total
    ensures forall e :: e in ends ==> e <= HighWater(total, ends)
    ensures HighWater(total, ends) == 0 || HighWater(total, ends) in ends
  {
    HighWaterIsMax(total, ends);
  }

  // ---- reading: the size is known ----

  /** Some call reached the end of the file; calls may also reach past it. */
  ghost predicate ReachedEnd(ends: seq<nat>, size: nat) {
    size == 0 || exists e :: e in ends && e >= size
  }

  /** A download from the share ends with the file's size exactly when some read reached its end. */
  lemma ReadsEndAtSizeIff(size: nat, ends: seq<nat>)
    ensures HighWater(size, ends) == size <==> ReachedEnd(ends, size)
    ensures HighWater(size, ends) <= size
  {
    HighWaterIsMax(size, ends);
  }

  // ---- writing: the size grows ----

  function Ends(chunks: seq<Chunk>): seq<nat> {
    seq(|chunks|, i requires 0 <= i < |chunks| => chunks[i].off + |chunks[i].data|)
  }

  /** The contents of a new file after these writes. */
  function Written(chunks: seq<Chunk>): seq<Byte> {
    if chunks == [] then []
    else
      var last := chunks[|chunks| - 1];
      Splice(Written(chunks[..|chunks| - 1]), last.off, last.data)
  }

  lemma SpliceLength(cur: seq<Byte>, c: Chunk)
    ensures |Splice(cur, c.off, c.data)| ==
            if c.data != [] && c.off + |c.data| > |cur| then c.off + |c.data| else |cur|
  {
  }

  lemma {:induction false} WrittenLength(chunks: seq<Chunk>)
    ensures forall c :: c in chunks && c.data != [] ==> c.off + |c.data| <= |Written(chunks)|
    ensures |Written(chunks)| == 0 || exists c :: c in chunks && c.data != [] && c.off + |c.data| == |Written(chunks)|
  {
    if chunks != [] {
      var front, last := chunks[..|chunks| - 1], chunks[|chunks| - 1];
      WrittenLength(front);
      SpliceLength(Written(front), last);
      assert chunks == front + [last] && last in chunks;
      if |Written(chunks)| == |Written(front)| && |Written(chunks)| != 0 {
        var c :| c in front && c.data != [] && c.off + |c.data| == |Written(front)|;
        assert c in chunks;
      }
    }
  }

  lemma EndsOf(chunks: seq<Chunk>, e: nat)
    ensures e in Ends(chunks) <==> exists c :: c in chunks && c.off + |c.data| == e
  {
    if e in Ends(chunks) {
      var i :| 0 <= i < |Ends(chunks)| && Ends(chunks)[i] == e;
      assert chunks[i] in chunks;
    }
    if c :| c in chunks && c.off + |c.data| == e {
      var i :| 0 <= i < |chunks| && chunks[i] == c;
      assert Ends(chunks)[i] == e;
    }
  }

  /**
    An upload to the share ends with the size of the file that was written, in whatever order its pieces came,
    exactly when no empty piece was addressed past the end.
   */
  lemma WritesEndAtSizeIff(chunks: seq<Chunk>)
    ensures HighWater(-1, Ends(chunks)) == |Written(chunks)| <==>
            forall c :: c in chunks && c.data == [] ==> c.off <= |Written(chunks)|
    ensures HighWater(-1, Ends(chunks)) >= |Written(chunks)|
  {
    var ends, size := Ends(chunks), |Written(chunks)|;
    HighWaterIsMax(-1, ends);
    WrittenLength(chunks);
    forall c | c in chunks ensures c.off + |c.data| in ends { EndsOf(chunks, c.off + |c.data|); }
    if HighWater(-1, ends) != 0 {
      var e :| e in ends && Clamp(-1, e) == HighWater(-1, ends);
      EndsOf(chunks, e);
    }
  }

  /** For one: an empty piece at offset 5 of an empty file is counted as five bytes. */
  lemma EmptyPieceCounts()
    ensures HighWater(-1, Ends([Chunk(5, [])])) == 5 && Written([Chunk(5, [])]) == []
  {
    assert [Chunk(5, [])][..0] == [];
    assert Ends([Chunk(5, [])]) == [5] && [5][..0] == [];
    assert HighWater(-1, []) == 0;
  }
}
