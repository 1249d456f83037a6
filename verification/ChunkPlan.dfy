/** Splitting a job's frame range into chunks. */
module ChunkPlan {

  datatype Range = Range(first: int, last: int) {
    predicate Has(frame: int) { first <= frame <= last }
    predicate Overlaps(other: Range) { first <= other.last && other.first <= last }
  }

  /** Non-empty ranges, no two of which share a frame. */
  ghost predicate Disjoint(ranges: seq<Range>) {
    && (forall i :: 0 <= i < |ranges| ==> ranges[i].first <= ranges[i].last)
    && (forall i, j :: 0 <= i < j < |ranges| ==> !ranges[i].Overlaps(ranges[j]))
  }

  ghost predicate Covers(ranges: seq<Range>, frame: int) {
    exists i :: 0 <= i < |ranges| && ranges[i].Has(frame)
  }

  /** The chunks of [first, last], cut every `size` frames. */
  function Chunks(first: int, last: int, size: int): seq<Range>
    decreases last - first
  {
    if size <= 0 || first > last then []
    else [Range(first, if first + size - 1 < last then first + size - 1 else last)] + Chunks(first + size, last, size)
  }

  /** Every frame of the job lies in exactly one chunk, every chunk but the last has `size`
      frames, and the chunks come in frame order. */
  lemma {:induction false} ChunksTile(first: int, last: int, size: int)
    requires size > 0
    ensures var cs := Chunks(first, last, size);
            && Disjoint(cs)
            && (forall f :: Covers(cs, f) <==> first <= f <= last)
            && (forall i :: 0 <= i < |cs| ==> cs[i].first == first + i * size)
            && (forall i :: 0 <= i < |cs| - 1 ==> cs[i].last == cs[i].first + size - 1)
            && (cs != [] ==> cs[|cs| - 1].last == last)
    decreases last - first
  {
    if first <= last {
      var cs, rest := Chunks(first, last, size), Chunks(first + size, last, size);
      ChunksTile(first + size, last, size);
      FirstIsApart(first, last, size);
      forall i | 1 <= i < |cs|
        ensures cs[i] == rest[i - 1] && cs[i].first == first + i * size
      {
        assert cs[i].first == first + size + (i - 1) * size;
      }
      forall f
        ensures Covers(cs, f) <==> cs[0].Has(f) || Covers(rest, f)
      {
        CoversCons(cs[0], rest, f);
      }
    }
  }

  lemma CoversCons(r: Range, rest: seq<Range>, f: int)
    ensures Covers([r] + rest, f) <==> r.Has(f) || Covers(rest, f)
  {
    if r.Has(f) { assert ([r] + rest)[0].Has(f); }
    if i :| 0 <= i < |rest| && rest[i].Has(f) { assert ([r] + rest)[i + 1].Has(f); }
    if i :| 0 <= i < |[r] + rest| && ([r] + rest)[i].Has(f) {
      if i > 0 { assert rest[i - 1].Has(f); }
    }
  }

  lemma FirstIsApart(first: int, last: int, size: int)
    requires size > 0 && first <= last
    requires var rest := Chunks(first + size, last, size);
             Disjoint(rest) && forall f :: Covers(rest, f) <==> first + size <= f <= last
    ensures Disjoint(Chunks(first, last, size))
  {
    var cs, rest := Chunks(first, last, size), Chunks(first + size, last, size);
    forall i | 1 <= i < |cs|
      ensures cs[i] == rest[i - 1] && !cs[0].Overlaps(cs[i])
    {
      assert rest[i - 1].Has(cs[i].first);
      assert Covers(rest, cs[i].first);
    }
  }

  /** A malformed request yields no chunks. */
  method ComputeChunks(frameStart: int, frameEnd: int, chunkSize: int) returns (chunks: seq<Range>)
    ensures chunks == Chunks(frameStart, frameEnd, chunkSize)
  {
    chunks := [];
    if chunkSize <= 0 || frameStart > frameEnd {
      return;
    }
    var f := frameStart;
    while f <= frameEnd
      invariant chunks + Chunks(f, frameEnd, chunkSize) == Chunks(frameStart, frameEnd, chunkSize)
    {
      var chunkEnd := if f + chunkSize - 1 < frameEnd then f + chunkSize - 1 else frameEnd;
      chunks := chunks + [Range(f, chunkEnd)];
      f := f + chunkSize;
    }
  }
}
