/** Per-frame progress: which frames of a chunk are known to be rendered. */
module FrameTracking {
  import opened Wrappers
  import opened Ordering
  import opened ChunkPlan
  import opened FarmTables
  import opened TableInvariants

  /** The tables once these frames of a job are recorded. */
  function Recorded(t: Tables, job: JobId, frames: set<int>): Tables {
    t.(chunks := map id | id in t.chunks :: WithFrames(t.chunks[id], job, frames))
  }

  /** A strictly ascending list is determined by its elements. */
  lemma AscendingIsUnique(s: seq<int>, r: seq<int>)
    requires StrictlyAscending(s) && StrictlyAscending(r)
    requires forall f :: f in s <==> f in r
    ensures s == r
  {
    var keys := map f | f in s :: Key(f, 0, 0, 0);
    assert Lists(s, keys) by { assert forall i :: 0 <= i < |s| ==> s[i] in s; }
    assert Lists(r, keys) by { assert forall i :: 0 <= i < |r| ==> r[i] in r; }
    SortedIsUnique(s, r, keys);
  }

  /** The frames of a chunk are the sorted, duplicate-free union of what was known and what the
      batch adds in its range. */
  lemma FramesAreUnion(c: Chunk, batch: set<int>, r: seq<int>)
    requires FramesFit(c)
    ensures r == FramesWith(c, batch) <==>
            StrictlyAscending(r) && forall f :: f in r <==> f in c.frames || (f in batch && c.range.Has(f))
  {
    FramesStayFit(c, batch);
    if StrictlyAscending(r) && forall f :: f in r <==> f in c.frames || (f in batch && c.range.Has(f)) {
      AscendingIsUnique(r, FramesWith(c, batch));
    }
  }

  lemma RowAbsorbs(c: Chunk, job: JobId, a: set<int>, b: set<int>)
    requires FramesFit(c)
    ensures WithFrames(WithFrames(c, job, a), job, b) == WithFrames(c, job, a + b)
  {
    if c.job == job {
      var c' := WithFrames(c, job, a);
      FramesStayFit(c, a);
      FramesStayFit(c', b);
      FramesAreUnion(c, a + b, FramesWith(c', b));
    }
  }

  /** Recording two batches one after the other is recording both at once. */
  lemma BatchesMerge(t: Tables, job: JobId, a: set<int>, b: set<int>)
    requires Inv(t)
    ensures Recorded(Recorded(t, job, a), job, b) == Recorded(t, job, a + b)
  {
    forall id | id in t.chunks
      ensures WithFrames(WithFrames(t.chunks[id], job, a), job, b) == WithFrames(t.chunks[id], job, a + b)
    {
      RowAbsorbs(t.chunks[id], job, a, b);
    }
    assert Recorded(Recorded(t, job, a), job, b).chunks == Recorded(t, job, a + b).chunks;
  }

  /** So neither the order of frame reports matters, nor whether one is delivered twice. */
  lemma BatchesCommute(t: Tables, job: JobId, a: set<int>, b: set<int>)
    requires Inv(t)
    ensures Recorded(Recorded(t, job, a), job, b) == Recorded(Recorded(t, job, b), job, a)
    ensures Recorded(Recorded(Recorded(t, job, a), job, b), job, a) == Recorded(Recorded(t, job, a), job, b)
  {
    BatchesMerge(t, job, a, b);
    BatchesMerge(t, job, b, a);
    assert b + a == a + b;
    var f := a + b;
    BatchesMerge(t, job, f, a);
    assert f + a == f;
  }

  /** Recording the frames of a report one at a time, in its order. */
  function RecordedOneByOne(t: Tables, job: JobId, frames: seq<int>): Tables
    decreases |frames|
  {
    if frames == [] then t else RecordedOneByOne(Recorded(t, job, {frames[0]}), job, frames[1..])
  }

  /** The batch update is the fold of the single-frame update. */
  lemma {:induction false} BatchIsFold(t: Tables, job: JobId, frames: seq<int>)
    requires Inv(t)
    ensures RecordedOneByOne(t, job, frames) == Recorded(t, job, set f | f in frames)
    decreases |frames|
  {
    if frames == [] {
      forall id | id in t.chunks
        ensures WithFrames(t.chunks[id], job, set f | f in frames) == t.chunks[id]
      {
        FramesAreUnion(t.chunks[id], {}, t.chunks[id].frames);
        assert (set f | f in frames) == {};
      }
      assert Recorded(t, job, set f | f in frames).chunks == t.chunks;
    } else {
      var rest := frames[1..];
      assert Recorded(t, job, {frames[0]}) == Apply(t, AddFrames(job, -1, [frames[0]])) by {
        assert (set f | f in [frames[0]]) == {frames[0]};
      }
      StepKeepsInv(t, AddFrames(job, -1, [frames[0]]));
      BatchIsFold(Recorded(t, job, {frames[0]}), job, rest);
      BatchesMerge(t, job, {frames[0]}, set f | f in rest);
      assert frames == [frames[0]] + rest;
      assert (set f | f in frames) == {frames[0]} + (set f | f in rest);
    }
  }

  /** A frame is recorded in the one chunk whose range has it, and in no other. */
  lemma FrameHasOneChunk(t: Tables, job: JobId, frame: int, id: ChunkId, other: ChunkId)
    requires Inv(t) && id in t.chunks && other in t.chunks
    requires t.chunks[id].job == job == t.chunks[other].job
    requires t.chunks[id].range.Has(frame) && t.chunks[other].range.Has(frame)
    ensures id == other
  {
    assert id != other ==> !t.chunks[id].range.Overlaps(t.chunks[other].range);
  }
}
