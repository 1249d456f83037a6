/** What every reachable state of the leader's database satisfies, whatever steps led to it. */
module TableInvariants {
  import opened Wrappers
  import opened Ordering
  import opened ChunkPlan
  import opened FarmTables

  ghost predicate StrictlyAscending(s: seq<int>) {
    forall i, j :: 0 <= i < j < |s| ==> s[i] < s[j]
  }

  ghost predicate NoDuplicates<T>(s: seq<T>) {
    forall i, j :: 0 <= i < j < |s| ==> s[i] != s[j]
  }

  /** Only a chunk in flight must have an assignee; one in the pool, or stopped, never has. */
  ghost predicate AssigneeFits(c: Chunk) {
    && (c.state in {Pending, Stopped} ==> c.assignee == None && c.assignedAt == None)
    && (c.state == Assigned ==> c.assignee.Some? && c.assignedAt.Some?)
  }

  ghost predicate FramesFit(c: Chunk) {
    && StrictlyAscending(c.frames)
    && (forall f :: f in c.frames ==> c.range.Has(f))
  }

  ghost predicate BlacklistFits(c: Chunk) { NoDuplicates(c.failedOn) && "" !in c.failedOn }

  ghost predicate RowOk(c: Chunk, jobEpoch: int) {
    && c.range.first <= c.range.last
    && AssigneeFits(c)
    && 0 <= c.epoch <= jobEpoch
    && 0 <= c.retries
    && FramesFit(c)
    && BlacklistFits(c)
  }

  ghost predicate RangesDisjoint(t: Tables) {
    forall x, y :: x in t.chunks && y in t.chunks && x != y && t.chunks[x].job == t.chunks[y].job
      ==> !t.chunks[x].range.Overlaps(t.chunks[y].range)
  }

  ghost predicate JobsOk(t: Tables) {
    && (forall j :: j in t.jobs ==> 0 <= t.jobs[j].epoch && t.jobs[j].row < t.nextRow)
    && (forall i, j :: i in t.jobs && j in t.jobs && t.jobs[i].row == t.jobs[j].row ==> i == j)
  }

  ghost predicate RowsOk(t: Tables) {
    forall id :: id in t.chunks ==>
      id < t.nextChunk && t.chunks[id].job in t.jobs && RowOk(t.chunks[id], t.jobs[t.chunks[id].job].epoch)
  }

  ghost predicate Inv(t: Tables) {
    JobsOk(t) && RowsOk(t) && RangesDisjoint(t)
  }

  /** Jobs never tie in the display order. */
  lemma JobKeysDistinct(t: Tables)
    requires JobsOk(t)
    ensures Distinct(JobKeys(t.jobs))
  {
  }

  /** A job and a range name at most one chunk. */
  lemma RangeNamesRow(t: Tables, id: ChunkId, other: ChunkId)
    requires Inv(t) && id in t.chunks && other in t.chunks
    requires t.chunks[id].job == t.chunks[other].job && t.chunks[id].range == t.chunks[other].range
    ensures id == other
  {
    assert id != other ==> !t.chunks[id].range.Overlaps(t.chunks[other].range);
  }

  // ---- Rows keep their shape ----

  lemma AscendingLists(frames: set<int>)
    ensures StrictlyAscending(Ascending(frames))
    ensures forall f :: f in Ascending(frames) <==> f in frames
  {
  }

  lemma FramesStayFit(c: Chunk, batch: set<int>)
    requires FramesFit(c)
    ensures FramesFit(c.(frames := FramesWith(c, batch)))
    ensures forall f :: f in FramesWith(c, batch) <==> f in c.frames || (f in batch && c.range.Has(f))
  {
    var news := set f | f in batch && c.range.Has(f) && f !in c.frames;
    AscendingLists((set f | f in c.frames) + news);
    if news == {} {
      forall f | f in batch && c.range.Has(f)
        ensures f in c.frames
      {
        assert f in news || f in c.frames;
      }
    }
  }

  lemma BlacklistStaysFit(c: Chunk, node: NodeId)
    requires BlacklistFits(c)
    ensures BlacklistFits(Blacklisting(c, node))
  {
  }

  // ---- Tables keep their shape ----

  /** t' holds rows of t, possibly rewritten, under the jobs of t, possibly with later epochs. */
  ghost predicate Rewrites(t: Tables, t': Tables) {
    && t'.nextChunk == t.nextChunk && t'.nextRow == t.nextRow
    && t'.jobs.Keys <= t.jobs.Keys
    && (forall j :: j in t'.jobs ==> t'.jobs[j].row == t.jobs[j].row && t'.jobs[j].epoch >= t.jobs[j].epoch)
    && t'.chunks.Keys <= t.chunks.Keys
    && (forall id :: id in t'.chunks ==>
          && t'.chunks[id].job == t.chunks[id].job && t'.chunks[id].range == t.chunks[id].range
          && t'.chunks[id].job in t'.jobs
          && RowOk(t'.chunks[id], t'.jobs[t'.chunks[id].job].epoch))
  }

  lemma RewriteKeepsInv(t: Tables, t': Tables)
    requires Inv(t) && Rewrites(t, t')
    ensures Inv(t')
  {
  }

  /** Rows that may be added for a job that has none. */
  ghost predicate InsertableRows(rows: seq<Chunk>, job: JobId) {
    && (forall i :: 0 <= i < |rows| ==> rows[i].job == job && RowOk(rows[i], 0))
    && (forall i, j :: 0 <= i < j < |rows| ==> !rows[i].range.Overlaps(rows[j].range))
  }

  lemma InsertedRow(t: Tables, rows: seq<Chunk>, id: ChunkId)
    requires RowsOk(t) && id in Inserted(t, rows).chunks
    ensures var c := Inserted(t, rows).chunks[id];
            if id in t.chunks then c == t.chunks[id] && id < t.nextChunk
            else 0 <= id - t.nextChunk < |rows| && c == rows[id - t.nextChunk]
  {
    hide RowOk;
  }

  lemma InsertKeepsInv(t: Tables, rows: seq<Chunk>, job: JobId)
    requires Inv(t) && job in t.jobs && InsertableRows(rows, job)
    requires forall id :: id in t.chunks ==> t.chunks[id].job != job
    ensures Inv(Inserted(t, rows))
  {
    var t' := Inserted(t, rows);
    InsertKeepsRows(t, rows, job);
    forall x, y | x in t'.chunks && y in t'.chunks && x != y && t'.chunks[x].job == t'.chunks[y].job
      ensures !t'.chunks[x].range.Overlaps(t'.chunks[y].range)
    {
      hide RowOk, Inserted;
      InsertedRow(t, rows, x);
      InsertedRow(t, rows, y);
      if x !in t.chunks && y !in t.chunks {
        var i, j := x - t.nextChunk, y - t.nextChunk;
        if i < j { assert !rows[i].range.Overlaps(rows[j].range); } else { assert !rows[j].range.Overlaps(rows[i].range); }
      }
    }
  }

  lemma InsertKeepsRows(t: Tables, rows: seq<Chunk>, job: JobId)
    requires Inv(t) && job in t.jobs && InsertableRows(rows, job)
    ensures RowsOk(Inserted(t, rows))
  {
  }

  lemma PlannedRowsInsertable(job: JobId, p: Plan)
    ensures InsertableRows(PlannedChunks(job, p), job)
  {
    if p.size > 0 { ChunksTile(p.first, p.last, p.size); }
  }

  lemma CopiedRowsInsertable(t: Tables, source: JobId, job: JobId, at: int)
    requires Inv(t)
    ensures InsertableRows(CopiedChunks(t, source, job, at), job)
  {
    var order, keys := ChunkOrder(t, source), ChunkKeys(t, source);
    assert Lists(order, keys);
    var rows := CopiedChunks(t, source, job, at);
    forall i | 0 <= i < |rows|
      ensures order[i] in keys && rows[i].job == job && rows[i].range == t.chunks[order[i]].range && RowOk(rows[i], 0)
    {
      assert order[i] in order;
    }
    forall i, j | 0 <= i < j < |rows|
      ensures !rows[i].range.Overlaps(rows[j].range)
    {
      assert keys[order[i]].Less(keys[order[j]]);
    }
  }

  /** A copy starts with nothing in flight. */
  lemma CopiedRows(t: Tables, source: JobId, job: JobId, at: int)
    ensures forall c :: c in CopiedChunks(t, source, job, at) ==> c.job == job && c.state in {Pending, Completed}
    ensures forall i :: 0 <= i < |CopiedChunks(t, source, job, at)| ==> CopiedChunks(t, source, job, at)[i].job == job
  {
  }

  /** Submission adds the rows of the new job and leaves all others alone. */
  lemma SubmittedRows(t: Tables, job: JobId, manifest: Manifest, priority: int, at: int, rows: seq<Chunk>)
    requires Inv(t) && job !in t.jobs
    requires forall i :: 0 <= i < |rows| ==> rows[i].job == job
    ensures var t' := Submitted(t, job, manifest, priority, at, rows);
            && (forall j :: j in t'.jobs && j != job ==> j in t.jobs && t'.jobs[j] == t.jobs[j])
            && job in t'.jobs && t'.jobs[job].status == Active
            && (forall id :: id in t'.chunks ==>
                  if t'.chunks[id].job == job then t'.chunks[id] in rows else id in t.chunks && t'.chunks[id] == t.chunks[id])
  {
  }

  lemma SubmitKeepsInv(t: Tables, job: JobId, manifest: Manifest, priority: int, at: int, rows: seq<Chunk>)
    requires Inv(t) && InsertableRows(rows, job)
    ensures Inv(Submitted(t, job, manifest, priority, at, rows))
  {
    hide Inv, Inserted, InsertableRows;
    if job !in t.jobs {
      var j := Job(manifest, Active, priority, at, at, 0, t.nextRow);
      NewJobKeepsInv(t, job, j);
      InsertKeepsInv(t.(jobs := t.jobs[job := j], nextRow := t.nextRow + 1), rows, job);
    }
  }

  lemma NewJobKeepsInv(t: Tables, job: JobId, j: Job)
    requires Inv(t) && job !in t.jobs && j.epoch == 0 && j.row == t.nextRow
    ensures Inv(t.(jobs := t.jobs[job := j], nextRow := t.nextRow + 1))
    ensures forall id :: id in t.chunks ==> t.chunks[id].job != job
  {
  }

  lemma EditKeepsInv(t: Tables, job: JobId, manifest: Manifest, mode: EditMode, priority: int)
    requires Inv(t)
    ensures Inv(Edited(t, job, manifest, mode, priority))
  {
    hide RangesDisjoint, Inserted, PlannedChunks;
    var t' := Edited(t, job, manifest, mode, priority);
    if manifest.plan.Some? && job in t.jobs && mode == StartOver {
      var was := t.jobs[job];
      var bumped := was.(manifest := manifest, priority := priority, sortKey := was.submittedAt, epoch := was.epoch + 1, status := Active);
      StartOverKeepsInv(t, job, bumped, manifest.plan.value);
    } else {
      assert Rewrites(t, t');
      RewriteKeepsInv(t, t');
    }
  }

  lemma StartOverKeepsInv(t: Tables, job: JobId, bumped: Job, p: Plan)
    requires Inv(t) && job in t.jobs && bumped.row == t.jobs[job].row && bumped.epoch >= t.jobs[job].epoch
    ensures var t1 := t.(jobs := t.jobs[job := bumped], chunks := OfOthers(t.chunks, job));
            Inv(Inserted(t1, PlannedChunks(job, p)))
  {
    var t1 := t.(jobs := t.jobs[job := bumped], chunks := OfOthers(t.chunks, job));
    assert Rewrites(t, t1);
    RewriteKeepsInv(t, t1);
    PlannedRowsInsertable(job, p);
    InsertKeepsInv(t1, PlannedChunks(job, p), job);
  }

  lemma FailKeepsInv(t: Tables, r: Report)
    requires Inv(t)
    ensures Inv(Apply(t, Fail(r)))
  {
    hide RangesDisjoint, AnyCurrent, RowOk, FailedBy;
    var t' := Apply(t, Fail(r));
    forall id | id in t.chunks
      ensures var c := FailedBy(t, id, r);
              c.job == t.chunks[id].job && c.range == t.chunks[id].range && RowOk(c, t.jobs[c.job].epoch)
    {
      FailedRowOk(t, id, r);
    }
    assert Rewrites(t, t');
    RewriteKeepsInv(t, t');
  }

  lemma FailedRowOk(t: Tables, id: ChunkId, r: Report)
    requires RowsOk(t) && id in t.chunks
    ensures var c := FailedBy(t, id, r);
            c.job == t.chunks[id].job && c.range == t.chunks[id].range && RowOk(c, t.jobs[c.job].epoch)
  {
    hide NoDuplicates, StrictlyAscending;
    BlacklistStaysFit(t.chunks[id], r.node);
  }

  lemma FramesKeepInv(t: Tables, job: JobId, epoch: int, batch: seq<int>)
    requires Inv(t)
    ensures Inv(Apply(t, AddFrames(job, epoch, batch)))
  {
    hide RangesDisjoint, FramesWith, NoDuplicates, StrictlyAscending;
    var t' := Apply(t, AddFrames(job, epoch, batch));
    forall id | id in t.chunks
      ensures FramesFit(WithFrames(t.chunks[id], job, set f | f in batch))
    {
      FramesStayFit(t.chunks[id], set f | f in batch);
    }
    assert Rewrites(t, t');
    RewriteKeepsInv(t, t');
  }

  /** Every step whatever keeps the database well formed. */
  lemma StepKeepsInv(t: Tables, s: Step)
    requires Inv(t)
    ensures Inv(Apply(t, s))
  {
    match s {
      case Submit(job, manifest, priority, at) =>
        if manifest.plan.Some? {
          PlannedRowsInsertable(job, manifest.plan.value);
          SubmitKeepsInv(t, job, manifest, priority, at, PlannedChunks(job, manifest.plan.value));
        }
      case Resubmit(source, job, at) =>
        if CanResubmit(t, source) {
          CopiedRowsInsertable(t, source, job, at);
          SubmitKeepsInv(t, job, t.jobs[source].manifest, t.jobs[source].priority, at, CopiedChunks(t, source, job, at));
        }
      case Edit(job, manifest, mode, priority) => EditKeepsInv(t, job, manifest, mode, priority);
      case Fail(r) => FailKeepsInv(t, r);
      case AddFrames(job, epoch, batch) => FramesKeepInv(t, job, epoch, batch);
      case Complete(r, at) => CompleteRewrites(t, r, at); RewriteKeepsInv(t, Apply(t, s));
      case Revert(job, range) => RevertRewrites(t, job, range); RewriteKeepsInv(t, Apply(t, s));
      case Reclaim(node) => ReclaimRewrites(t, node); RewriteKeepsInv(t, Apply(t, s));
      case RetryFailed(job) => RetryRewrites(t, job); RewriteKeepsInv(t, Apply(t, s));
      case RequeueAll(job) => RequeueRewrites(t, job); RewriteKeepsInv(t, Apply(t, s));
      case Assign(id, node, tags, at) => AssignRewrites(t, id, node, tags, at); RewriteKeepsInv(t, Apply(t, s));
      case Stop(id) => StopRewrites(t, id); RewriteKeepsInv(t, Apply(t, s));
      case Reassign(id, node, at) => ReassignRewrites(t, id, node, at); RewriteKeepsInv(t, Apply(t, s));
      case CheckCompletion(job) => CheckRewrites(t, job); RewriteKeepsInv(t, Apply(t, s));
      case Steer(job, control) => SteerRewrites(t, job, control); RewriteKeepsInv(t, Apply(t, s));
      case Reorder(ranks) => ReorderRewrites(t, ranks); RewriteKeepsInv(t, Apply(t, s));
      case Delete(job) => DeleteRewrites(t, job); RewriteKeepsInv(t, Apply(t, s));
    }
  }

  lemma CompleteRewrites(t: Tables, r: Report, at: int)
    requires Inv(t)
    ensures Rewrites(t, Apply(t, Complete(r, at)))
  {
    hide RangesDisjoint;
  }

  lemma RevertRewrites(t: Tables, job: JobId, range: Range)
    requires Inv(t)
    ensures Rewrites(t, Apply(t, Revert(job, range)))
  {
    hide RangesDisjoint;
  }

  lemma ReclaimRewrites(t: Tables, node: NodeId)
    requires Inv(t)
    ensures Rewrites(t, Apply(t, Reclaim(node)))
  {
    hide RangesDisjoint;
  }

  lemma RetryRewrites(t: Tables, job: JobId)
    requires Inv(t)
    ensures Rewrites(t, Apply(t, RetryFailed(job)))
  {
    hide RangesDisjoint, HasChunk;
  }

  lemma RequeueRewrites(t: Tables, job: JobId)
    requires Inv(t)
    ensures Rewrites(t, Apply(t, RequeueAll(job)))
  {
    hide RangesDisjoint;
  }

  lemma AssignRewrites(t: Tables, id: ChunkId, node: NodeId, tags: seq<Tag>, at: int)
    requires Inv(t)
    ensures Rewrites(t, Apply(t, Assign(id, node, tags, at)))
  {
    hide RangesDisjoint, AllRequired;
  }

  lemma StopRewrites(t: Tables, id: ChunkId)
    requires Inv(t)
    ensures Rewrites(t, Apply(t, Stop(id)))
  {
    hide RangesDisjoint;
  }

  lemma ReassignRewrites(t: Tables, id: ChunkId, node: NodeId, at: int)
    requires Inv(t)
    ensures Rewrites(t, Apply(t, Reassign(id, node, at)))
  {
    hide RangesDisjoint, NoDuplicates, StrictlyAscending;
  }

  lemma CheckRewrites(t: Tables, job: JobId)
    requires Inv(t)
    ensures Rewrites(t, Apply(t, CheckCompletion(job)))
  {
    hide RangesDisjoint, RowOk, HasChunk;
  }

  lemma SteerRewrites(t: Tables, job: JobId, control: Control)
    requires Inv(t)
    ensures Rewrites(t, Apply(t, Steer(job, control)))
  {
    hide RangesDisjoint, RowOk;
  }

  lemma ReorderRewrites(t: Tables, ranks: map<JobId, Rank>)
    requires Inv(t)
    ensures Rewrites(t, Apply(t, Reorder(ranks)))
  {
    hide RangesDisjoint, RowOk;
  }

  lemma DeleteRewrites(t: Tables, job: JobId)
    requires Inv(t)
    ensures Rewrites(t, Apply(t, Delete(job)))
  {
    hide RangesDisjoint, RowOk;
  }

  /** Over whole runs: the ranges of a job stay pairwise disjoint, frame lists stay sorted and
      inside their chunk, assignees fit states, and no chunk is ahead of its job's epoch. */
  lemma {:induction false} RunKeepsInv(t: Tables, steps: seq<Step>)
    requires Inv(t)
    ensures Inv(Run(t, steps))
    decreases |steps|
  {
    if steps != [] {
      StepKeepsInv(t, steps[0]);
      RunKeepsInv(Apply(t, steps[0]), steps[1..]);
    }
  }

  lemma EmptyIsInv()
    ensures Inv(EMPTY)
  {
  }
}
