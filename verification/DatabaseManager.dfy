/** The leader's database object. Each method is one locked call on the tables and is proved
    against the state machine. */
module DatabaseManager {
  import opened Wrappers
  import opened Ordering
  import opened ChunkPlan
  import opened FarmTables
  import opened TableInvariants
  import opened DisplayOrder
  import opened FrameTracking

  /** x goes before y: by job order, then by first frame. */
  predicate CandidateLess(t: Tables, x: ChunkId, y: ChunkId)
    requires x in t.chunks && y in t.chunks && t.chunks[x].job in t.jobs && t.chunks[y].job in t.jobs
  {
    var c, d := t.chunks[x], t.chunks[y];
    || JobKey(t.jobs[c.job]).Less(JobKey(t.jobs[d.job]))
    || (c.job == d.job && (c.range.first < d.range.first || (c.range.first == d.range.first && x < y)))
  }

  /** The columns that jobs are listed by: the lower priority number first, then the lower sort key, then the
      earlier submission. */
  predicate NoLater(j: Job, k: Job) {
    || j.priority < k.priority
    || (j.priority == k.priority && (j.sortKey < k.sortKey || (j.sortKey == k.sortKey && j.submittedAt <= k.submittedAt)))
  }

  /** The list of jobs is in that order. */
  lemma ListedInOrder(jobs: map<JobId, Job>, i: nat, k: nat)
    requires Distinct(JobKeys(jobs)) && i < k < |Sorted(JobKeys(jobs))|
    ensures var list := Sorted(JobKeys(jobs));
            list[i] in jobs && list[k] in jobs && NoLater(jobs[list[i]], jobs[list[k]])
  {
    var list := Sorted(JobKeys(jobs));
    assert list[i] in list && list[k] in list;
  }

  /** What comes first for a node comes first in those columns, and within its job by first frame. */
  lemma NextInColumns(t: Tables, id: ChunkId, node: NodeId, tags: seq<Tag>, other: ChunkId)
    requires IsNext(t, id, node, tags) && Eligible(t, other, node, tags)
    ensures NoLater(t.jobs[t.chunks[id].job], t.jobs[t.chunks[other].job])
    ensures t.chunks[id].job == t.chunks[other].job ==> t.chunks[id].range.first <= t.chunks[other].range.first
  {
    hide AllRequired;
    if other != id { assert CandidateLess(t, id, other); }
  }

  /** The chunk a node gets next: eligible, and ahead of every other eligible one. */
  ghost predicate IsNext(t: Tables, id: ChunkId, node: NodeId, tags: seq<Tag>) {
    && Eligible(t, id, node, tags)
    && forall other :: Eligible(t, other, node, tags) && other != id ==> CandidateLess(t, id, other)
  }

  /** The order of dispatch is the order on display: no other job with a chunk for this node stands
      before the job of the chunk it gets. */
  lemma NextFollowsDisplay(t: Tables, id: ChunkId, node: NodeId, tags: seq<Tag>, other: ChunkId, i: nat, j: nat)
    requires Inv(t) && IsNext(t, id, node, tags) && Eligible(t, other, node, tags)
    requires Distinct(JobKeys(t.jobs)) && i < |Sorted(JobKeys(t.jobs))| && j < |Sorted(JobKeys(t.jobs))|
    requires Sorted(JobKeys(t.jobs))[i] == t.chunks[id].job && Sorted(JobKeys(t.jobs))[j] == t.chunks[other].job
    ensures i <= j
  {
    EarlierIffLess(Sorted(JobKeys(t.jobs)), JobKeys(t.jobs), j, i);
    if other != id { assert CandidateLess(t, id, other); }
  }

  /** A chunk as the batch update of frames holds it in memory. */
  datatype Tracked = Tracked(id: ChunkId, range: Range, frames: seq<int>, dirty: bool)

  class Database {
    var jobs: map<JobId, Job>
    var chunks: map<ChunkId, Chunk>
    var nextRow: int
    var nextChunk: ChunkId

    function View(): Tables
      reads this
    {
      Tables(jobs, chunks, nextRow, nextChunk)
    }

    constructor ()
      ensures View() == EMPTY
    {
      jobs, chunks, nextRow, nextChunk := map[], map[], 0, 0;
    }

    // ---- Jobs ----

    method InsertJob(job: JobId, manifest: Manifest, priority: int, submittedAt: int) returns (ok: bool)
      modifies this
      ensures ok <==> job !in old(jobs)
      ensures View() == if ok then Submitted(old(View()), job, manifest, priority, submittedAt, []) else old(View())
    {
      if job in jobs {
        return false;
      }
      jobs := jobs[job := Job(manifest, Active, priority, submittedAt, submittedAt, 0, nextRow)];
      nextRow := nextRow + 1;
      assert chunks == Inserted(View(), []).chunks;
      return true;
    }

    method UpdateJobState(job: JobId, status: JobStatus) returns (ok: bool)
      modifies this
      ensures ok <==> job in old(jobs)
      ensures View() == WithStatus(old(View()), job, status)
    {
      ok := job in jobs;
      if ok {
        jobs := jobs[job := jobs[job].(status := status)];
      }
    }

    method UpdateJobPriority(job: JobId, priority: int) returns (ok: bool)
      modifies this
      ensures ok <==> job in old(jobs)
      ensures View() == if ok then old(View()).(jobs := old(jobs)[job := Reprioritized(old(jobs)[job], priority)]) else old(View())
    {
      ok := job in jobs;
      if ok {
        jobs := jobs[job := jobs[job].(priority := priority, sortKey := jobs[job].submittedAt)];
      }
    }

    method UpdateJobManifest(job: JobId, manifest: Manifest) returns (ok: bool)
      modifies this
      ensures ok <==> job in old(jobs)
      ensures View() == if ok then old(View()).(jobs := old(jobs)[job := old(jobs)[job].(manifest := manifest)]) else old(View())
    {
      ok := job in jobs;
      if ok {
        jobs := jobs[job := jobs[job].(manifest := manifest)];
      }
    }

    method DeleteJob(job: JobId) returns (ok: bool)
      modifies this
      ensures ok <==> job in old(jobs)
      ensures View() == Apply(old(View()), Delete(job))
    {
      ok := job in jobs;
      jobs := jobs - {job};
      chunks := map id | id in chunks && chunks[id].job != job :: chunks[id];
    }

    /** Drag-to-reorder. */
    method MoveJob(job: JobId, target: JobId, before: bool) returns (ok: bool)
      requires Inv(View())
      modifies this`jobs
      ensures Distinct(JobKeys(old(jobs)))
      ensures ok <==> CanMove(old(jobs), job, target)
      ensures jobs == if ok then Moved(old(jobs), job, target, before) else old(jobs)
    {
      JobKeysDistinct(View());
      if job == target || job !in jobs || target !in jobs {
        return false;
      }
      var priority := jobs[target].priority;
      if jobs[job].priority != priority {
        jobs := jobs[job := jobs[job].(priority := priority)];
      }
      assert jobs == old(jobs)[job := old(jobs)[job].(priority := priority)];
      var ids := GroupSplice(old(jobs), job, target, before);
      RenumberGroup(ids);
      MovedIsRenumbered(old(jobs), job, target, before);
      return true;
    }

    /** Snapshot the group in display order, take the moved job out, put it back next to the target. */
    method GroupSplice(ghost was: map<JobId, Job>, job: JobId, target: JobId, before: bool) returns (ids: seq<JobId>)
      requires Distinct(JobKeys(was)) && CanMove(was, job, target)
      requires forall i, j :: i in was && j in was && was[i].row == was[j].row ==> i == j
      requires jobs == was[job := was[job].(priority := was[target].priority)]
      ensures ids == MovedGroup(was, job, target, before)
      ensures NoDuplicates(ids) && forall id :: id in ids ==> id in jobs
    {
      GroupIsDistinct(jobs, jobs[target].priority);
      GroupWithoutMoved(was, jobs, job, target);
      ids := Sorted(GroupKeys(jobs, jobs[target].priority));
      ids := Without(ids, job);
      ids := InsertBeside(ids, target, job, before);
      ghost var rest, c, k := GroupPlaces(was, job, target, before);
    }

    method RenumberGroup(ids: seq<JobId>)
      requires NoDuplicates(ids) && forall id :: id in ids ==> id in jobs
      modifies this`jobs
      ensures jobs == Renumbered(old(jobs), ids)
    {
      var i := 0;
      while i < |ids|
        invariant 0 <= i <= |ids|
        invariant jobs == Renumbered(old(jobs), ids[..i])
      {
        var id := ids[i];
        assert id in ids;
        IndexIsPlace(ids[..i + 1], i);
        jobs := jobs[id := jobs[id].(sortKey := (i + 1) * KEY_SPACING)];
        OneMoreRenumbered(old(jobs), ids, i);
        i := i + 1;
      }
      assert ids[..|ids|] == ids;
    }

    // ---- Chunks ----

    method InsertChunks(job: JobId, ranges: seq<Range>)
      modifies this
      ensures View() == Inserted(old(View()), FreshChunks(job, ranges))
    {
      var i := 0;
      while i < |ranges|
        invariant 0 <= i <= |ranges|
        invariant jobs == old(jobs) && nextRow == old(nextRow)
        invariant View() == Inserted(old(View()), FreshChunks(job, ranges[..i]))
      {
        chunks := chunks[nextChunk := FreshChunk(job, ranges[i])];
        nextChunk := nextChunk + 1;
        InsertedOneMore(old(View()), job, ranges, i);
        i := i + 1;
      }
      assert ranges[..|ranges|] == ranges;
    }

    // ---- Dispatch ----

    /** The nested scan, with its early exits. */
    method FindNextPendingChunkForNode(nodeTags: seq<Tag>, nodeId: NodeId) returns (found: Option<ChunkId>)
      requires Inv(View())
      ensures found.None? ==> forall id :: !Eligible(View(), id, nodeId, nodeTags)
      ensures found.Some? ==> IsNext(View(), found.value, nodeId, nodeTags)
      ensures found.Some? ==> forall id :: Eligible(View(), id, nodeId, nodeTags) ==>
                && NoLater(jobs[chunks[found.value].job], jobs[chunks[id].job])
                && (chunks[id].job == chunks[found.value].job ==> chunks[found.value].range.first <= chunks[id].range.first)
    {
      ghost var t := View();
      WorkKeysDistinct(t);
      var order := Sorted(WorkKeys(View()));
      var i := 0;
      while i < |order|
        invariant 0 <= i <= |order| && View() == t
        invariant Passed(t, order[..i], nodeId, nodeTags)
      {
        var job := order[i];
        assert job in order;
        var requiredTags := jobs[job].manifest.requiredTags;
        var eligible := false;
        if requiredTags.Some? {
          eligible := HasAllTags(requiredTags.value, nodeTags);
        }
        if eligible {
          var row := FirstOpenRow(job, nodeId);
          if row.Some? {
            FoundIsNext(t, nodeId, nodeTags, order, i, row.value);
            forall id | Eligible(t, id, nodeId, nodeTags)
              ensures NoLater(jobs[chunks[row.value].job], jobs[chunks[id].job])
              ensures chunks[id].job == chunks[row.value].job ==> chunks[row.value].range.first <= chunks[id].range.first
            {
              NextInColumns(t, row.value, nodeId, nodeTags, id);
            }
            return row;
          }
        }
        OneMorePassed(t, order, i, nodeId, nodeTags);
        i := i + 1;
      }
      assert order[..|order|] == order;
      AllPassed(t, order, nodeId, nodeTags);
      return None;
    }

    /** The inner scan: the job's first pending chunk that is not blacklisted for the node. */
    method FirstOpenRow(job: JobId, nodeId: NodeId) returns (found: Option<ChunkId>)
      ensures found.None? ==> NothingOpen(View(), job, nodeId)
      ensures found.Some? ==> Open(View(), found.value, job, nodeId)
      ensures forall id :: Open(View(), id, job, nodeId) ==>
                found.Some? && (id == found.value || ComesFirst(View(), found.value, id))
    {
      hide IndexOf, Sorted;
      var rowKeys := map id | id in chunks && chunks[id].job == job && chunks[id].state == Pending
        :: Key(chunks[id].range.first, id, 0, 0);
      var rows := Sorted(rowKeys);
      var r := 0;
      while r < |rows|
        invariant 0 <= r <= |rows|
        invariant forall q :: 0 <= q < r ==> !Open(View(), rows[q], job, nodeId)
      {
        assert rows[r] in rows && rows[r] in rowKeys;
        if nodeId != "" && nodeId in chunks[rows[r]].failedOn {
          r := r + 1;
          continue;
        }
        forall id | Open(View(), id, job, nodeId) && id != rows[r]
          ensures ComesFirst(View(), rows[r], id)
        {
          assert id in rowKeys && id in rows;
          var q := IndexOf(rows, id);
          assert rowKeys[rows[r]].Less(rowKeys[rows[q]]);
        }
        return Some(rows[r]);
      }
      forall id | id in rowKeys
        ensures !Open(View(), id, job, nodeId)
      {
        assert id in rows;
      }
      assert NothingOpen(View(), job, nodeId);
      return None;
    }

    method HasAllTags(required: seq<Tag>, tags: seq<Tag>) returns (all: bool)
      ensures all <==> AllRequired(required, tags)
    {
      for r := 0 to |required|
        invariant forall k :: 0 <= k < r ==> required[k] in tags
      {
        if required[r] !in tags {
          return false;
        }
      }
      return true;
    }

    method GetJobEditEpoch(job: JobId) returns (epoch: int)
      ensures epoch == JobEpoch(View(), job)
      ensures epoch == if job in jobs then jobs[job].epoch else 0
    {
      epoch := if job in jobs then jobs[job].epoch else 0;
    }

    method AssignChunk(id: ChunkId, node: NodeId, now: int, epoch: int) returns (ok: bool)
      modifies this
      ensures ok <==> id in old(chunks) && old(chunks)[id].state == Pending
      ensures View() == if ok then WithRow(old(View()), id, old(chunks)[id].(state := Assigned, assignee := Some(node),
                                                                           assignedAt := Some(now), epoch := epoch))
                        else old(View())
    {
      ok := id in chunks && chunks[id].state == Pending;
      if ok {
        chunks := chunks[id := chunks[id].(state := Assigned, assignee := Some(node), assignedAt := Some(now), epoch := epoch)];
      }
    }

    method CompleteChunk(r: Report, now: int) returns (ok: bool)
      modifies this
      ensures ok <==> AnyCurrent(old(View()), r)
      ensures View() == Apply(old(View()), Complete(r, now))
    {
      ok := exists id | id in chunks :: Current(chunks[id], r);
      chunks := map id | id in chunks ::
        if Current(chunks[id], r) then chunks[id].(state := Completed, completedAt := Some(now)) else chunks[id];
      assert chunks == map id | id in old(chunks) :: CompletedBy(old(chunks)[id], r, now);
    }

    method IsChunkCurrent(r: Report) returns (current: bool)
      ensures current <==> AnyCurrent(View(), r)
    {
      current := exists id | id in chunks :: Current(chunks[id], r);
    }

    method IsJobEpochCurrent(job: JobId, epoch: int) returns (current: bool)
      ensures current <==> EpochCurrent(View(), job, epoch)
      ensures current <==> epoch < 0 || epoch == if job in jobs then jobs[job].epoch else 0
    {
      if epoch < 0 {
        return true;
      }
      var now := GetJobEditEpoch(job);
      return now == epoch;
    }

    /** Fence, then blacklist, then count: three statements, one effect. */
    method FailChunk(r: Report, maxRetries: int) returns (ok: bool)
      requires Inv(View())
      modifies this
      ensures ok <==> AnyCurrent(old(View()), r)
      ensures View() == FailedWithin(old(View()), r, maxRetries)
      ensures maxRetries == MaxRetries(old(View()), r.job) ==> View() == Apply(old(View()), Fail(r))
      ensures forall id :: id in old(chunks) && Current(old(chunks)[id], r) ==>
                id in chunks && OneMoreFailure(old(chunks)[id], chunks[id], maxRetries)
    {
      hide FailedOnce, Blacklisting, Current, Apply, OneMoreFailure;
      FailedWithinOwnLimit(View(), r);
      NotCurrentNotFailed(View(), r, maxRetries);
      FailsOnceMore(View(), r, maxRetries);
      var current := IsChunkCurrent(r);
      if !current {
        return false;
      }
      AppendFailedOn(r);
      CountFailure(r, maxRetries);
      FailedInTwoSteps(old(View()), r, maxRetries);
      return true;
    }

    method AppendFailedOn(r: Report)
      requires Inv(View()) && AnyCurrent(View(), r)
      modifies this`chunks
      ensures chunks == Marked(old(View()), r)
    {
      if r.node != "" {
        FirstOfRange(View(), r);
        var id :| id in chunks && IsLowest(View(), id, r.job, r.range);
        if r.node !in chunks[id].failedOn {
          chunks := chunks[id := chunks[id].(failedOn := chunks[id].failedOn + [r.node])];
        }
      }
      assert chunks == Marked(old(View()), r);
    }

    method CountFailure(r: Report, maxRetries: int)
      modifies this`chunks
      ensures chunks == Counted(old(chunks), r, maxRetries)
    {
      chunks := map id | id in chunks ::
        if chunks[id].job == r.job && chunks[id].range == r.range && chunks[id].state == Assigned
        then chunks[id].(retries := chunks[id].retries + 1,
                         state := if chunks[id].retries + 1 < maxRetries then Pending else Failed,
                         assignee := if chunks[id].retries + 1 < maxRetries then None else chunks[id].assignee,
                         assignedAt := if chunks[id].retries + 1 < maxRetries then None else chunks[id].assignedAt)
        else chunks[id];
      forall id | id in old(chunks)
        ensures chunks[id] == Counted(old(chunks), r, maxRetries)[id]
      {
        var c := old(chunks)[id];
        if c.retries + 1 < maxRetries {
          assert FailedOnce(c, maxRetries) == c.(retries := c.retries + 1, state := Pending, assignee := None, assignedAt := None);
        } else {
          assert FailedOnce(c, maxRetries) == c.(retries := c.retries + 1, state := Failed);
        }
      }
    }

    method StopChunk(id: ChunkId) returns (row: Option<Chunk>)
      modifies this
      ensures row == if id in old(chunks) && IsOpen(old(chunks)[id]) then Some(old(chunks)[id]) else None
      ensures View() == Apply(old(View()), Stop(id))
    {
      if id !in chunks {
        return None;
      }
      var c := chunks[id];
      if !(c.state == Pending || c.state == Assigned) {
        assert chunks == chunks[id := StoppedRow(c)];
        return None;
      }
      chunks := chunks[id := c.(state := Stopped, assignee := None, assignedAt := None)];
      return Some(c);
    }

    method BumpEditEpoch(job: JobId) returns (epoch: int)
      modifies this
      ensures View() == if job in old(jobs) then old(View()).(jobs := old(jobs)[job := old(jobs)[job].(epoch := old(jobs)[job].epoch + 1)])
                        else old(View())
      ensures epoch == JobEpoch(View(), job)
      ensures epoch == if job in jobs then jobs[job].epoch else 0
    {
      if job in jobs {
        jobs := jobs[job := jobs[job].(epoch := jobs[job].epoch + 1)];
      }
      epoch := GetJobEditEpoch(job);
    }

    /** No state guard: the row goes back to the pool whatever became of it. */
    method RevertChunkToPending(job: JobId, range: Range) returns (ok: bool)
      modifies this
      ensures ok <==> exists id :: id in old(chunks) && old(chunks)[id].job == job && old(chunks)[id].range == range
      ensures View() == Apply(old(View()), Revert(job, range))
    {
      ok := exists id | id in chunks :: chunks[id].job == job && chunks[id].range == range;
      chunks := map id | id in chunks ::
        if chunks[id].job == job && chunks[id].range == range
        then chunks[id].(state := Pending, assignee := None, assignedAt := None) else chunks[id];
      assert chunks == map id | id in old(chunks) :: Reverted(old(chunks)[id], job, range);
    }

    method ReassignDeadWorkerChunks(node: NodeId) returns (count: nat)
      modifies this
      ensures count == |set id | id in old(chunks) && old(chunks)[id].state == Assigned && old(chunks)[id].assignee == Some(node)|
      ensures View() == Apply(old(View()), Reclaim(node))
    {
      count := |set id | id in chunks && chunks[id].state == Assigned && chunks[id].assignee == Some(node)|;
      chunks := map id | id in chunks ::
        if chunks[id].assignee == Some(node) && chunks[id].state == Assigned
        then chunks[id].(state := Pending, assignee := None, assignedAt := None) else chunks[id];
      assert chunks == map id | id in old(chunks) :: Reclaimed(old(chunks)[id], node);
    }

    /** None while any chunk is neither completed, failed nor stopped. */
    method GetJobCompletionState(job: JobId) returns (verdict: Option<JobStatus>)
      ensures verdict == if HasChunk(View(), job, {Pending, Assigned}) then None
                         else if HasChunk(View(), job, {Failed}) then Some(Broken) else Some(Finished)
    {
      var inProgress := exists id | id in chunks :: chunks[id].job == job && chunks[id].state !in {Completed, Failed, Stopped};
      var failed := exists id | id in chunks :: chunks[id].job == job && chunks[id].state == Failed;
      assert HasChunk(View(), job, {Pending, Assigned}) ==> inProgress;
      assert HasChunk(View(), job, {Failed}) ==> failed;
      if inProgress {
        return None;
      }
      if failed {
        return Some(Broken);
      }
      return Some(Finished);
    }

    method ResetAllChunks(job: JobId)
      modifies this
      ensures View() == old(View()).(chunks := map id | id in old(chunks) :: Requeued(old(chunks)[id], job))
    {
      chunks := map id | id in chunks ::
        if chunks[id].job == job
        then chunks[id].(state := Pending, assignee := None, assignedAt := None, completedAt := None, retries := 0,
                         frames := [], failedOn := [])
        else chunks[id];
    }

    method ResetAssignedChunks(job: JobId)
      modifies this
      ensures View() == old(View()).(chunks := AllWithdrawn(old(chunks), job))
    {
      chunks := map id | id in chunks ::
        if chunks[id].job == job && chunks[id].state == Assigned
        then chunks[id].(state := Pending, assignee := None, assignedAt := None) else chunks[id];
      assert forall id :: id in old(chunks) ==> chunks[id] == Withdrawn(old(chunks)[id], job);
      assert chunks == AllWithdrawn(old(chunks), job);
    }

    method RebuildChunks(job: JobId, ranges: seq<Range>)
      modifies this
      ensures View() == Inserted(old(View()).(chunks := OfOthers(old(chunks), job)),
                                 FreshChunks(job, ranges))
    {
      chunks := map id | id in chunks && chunks[id].job != job :: chunks[id];
      InsertChunks(job, ranges);
    }

    method RetryFailedChunks(job: JobId) returns (ok: bool)
      modifies this
      ensures ok <==> HasChunk(old(View()), job, {Failed})
      ensures View() == Apply(old(View()), RetryFailed(job))
    {
      ok := exists id | id in chunks :: chunks[id].job == job && chunks[id].state == Failed;
      assert ok ==> HasChunk(View(), job, {Failed});
      chunks := map id | id in chunks ::
        if chunks[id].job == job && chunks[id].state == Failed
        then chunks[id].(state := Pending, assignee := None, assignedAt := None, retries := 0, frames := []) else chunks[id];
      assert chunks == map id | id in old(chunks) :: Retried(old(chunks)[id], job);
      if ok {
        var _ := UpdateJobState(job, Active);
      } else {
        assert forall id :: id in old(chunks) && old(chunks)[id].job == job ==> old(chunks)[id].state !in {Failed};
        assert chunks == old(chunks);
      }
    }

    /** To the pool when no node is named - reopening a job that is over - else to that node, under
        whatever stamp the chunk last had. */
    method ReassignChunk(id: ChunkId, node: NodeId, now: int) returns (ok: bool)
      modifies this
      ensures ok <==> id in old(chunks) && Reassignable(old(chunks)[id])
      ensures View() == Apply(old(View()), Reassign(id, node, now))
    {
      if !(id in chunks && chunks[id].state in {Assigned, Failed, Stopped}) {
        return false;
      }
      if node == "" {
        chunks := chunks[id := chunks[id].(state := Pending, assignee := None, assignedAt := None)];
        var job := chunks[id].job;
        if job in jobs && jobs[job].status in {Finished, Broken} {
          jobs := jobs[job := jobs[job].(status := Active)];
        }
      } else {
        chunks := chunks[id := chunks[id].(state := Assigned, assignee := Some(node), assignedAt := Some(now))];
      }
      return true;
    }

    /** Copies of already rendered chunks are completed without a guard. */
    method MarkChunksCompleted(job: JobId, ranges: seq<Range>, now: int)
      modifies this`chunks
      ensures chunks == MarkedCompleted(old(chunks), job, ranges, now)
    {
      var i := 0;
      assert chunks == map id | id in old(chunks) :: MarkedRow(old(chunks)[id], job, ranges[..0], now);
      while i < |ranges|
        invariant 0 <= i <= |ranges|
        invariant chunks == MarkedCompleted(old(chunks), job, ranges[..i], now)
      {
        ghost var before := chunks;
        chunks := map id | id in chunks ::
          if chunks[id].job == job && chunks[id].range == ranges[i]
          then chunks[id].(state := Completed, completedAt := Some(now)) else chunks[id];
        assert ranges[..i + 1] == ranges[..i] + [ranges[i]];
        forall id | id in old(chunks)
          ensures chunks[id] == MarkedRow(old(chunks)[id], job, ranges[..i + 1], now)
        {
          assert before[id] == MarkedRow(old(chunks)[id], job, ranges[..i], now);
        }
        assert chunks == map id | id in old(chunks) :: MarkedRow(old(chunks)[id], job, ranges[..i + 1], now);
        i := i + 1;
      }
      assert ranges[..|ranges|] == ranges;
    }

    // ---- Frames ----

    method AddCompletedFrame(job: JobId, frame: int) returns (ok: bool)
      requires Inv(View())
      modifies this
      ensures ok <==> exists id :: id in old(chunks) && old(chunks)[id].job == job && old(chunks)[id].range.Has(frame)
      ensures View() == Recorded(old(View()), job, {frame})
    {
      if id :| id in chunks && chunks[id].job == job && chunks[id].range.Has(frame) {
        var frames := chunks[id].frames;
        if frame !in frames {
          frames := Ascending((set f | f in frames) + {frame});
        }
        chunks := chunks[id := chunks[id].(frames := frames)];
        RecordedInOneRow(old(View()), job, frame, id);
        return true;
      }
      RecordedNowhere(View(), job, {frame});
      return false;
    }

    /** Load the job's chunks, place each frame, sort and write back the chunks that changed. */
    method AddCompletedFramesBatch(job: JobId, frames: seq<int>)
      requires Inv(View())
      modifies this
      ensures View() == Recorded(old(View()), job, set f | f in frames)
    {
      if frames == [] {
        RecordedNowhere(View(), job, set f | f in frames);
        return;
      }
      ghost var t := View();
      var loaded := LoadChunks(job);
      for n := 0 to |frames|
        invariant View() == t && AllHold(t, loaded, job, frames[..n])
      {
        loaded := PlaceFrame(loaded, job, frames, n, frames[n]);
      }
      assert frames[..|frames|] == frames;
      WriteBack(loaded, job, frames);
    }

    method LoadChunks(job: JobId) returns (loaded: seq<Tracked>)
      ensures AllHold(View(), loaded, job, [])
    {
      var order := ChunkOrder(View(), job);
      NoRepeats(order, ChunkKeys(View(), job));
      loaded := [];
      for i := 0 to |order|
        invariant |loaded| == i
        invariant forall k :: 0 <= k < i ==> loaded[k].id == order[k] && Holds(View(), loaded[k], job, [])
      {
        assert order[i] in order;
        loaded := loaded + [Tracked(order[i], chunks[order[i]].range, chunks[order[i]].frames, false)];
      }
      forall id | id in chunks && chunks[id].job == job
        ensures exists k :: 0 <= k < |loaded| && loaded[k].id == id
      {
        assert id in order;
        var k := IndexOf(order, id);
        assert loaded[k].id == id;
      }
    }

    /** A frame goes to the first chunk that has it in its range, if it is not there already. */
    method PlaceFrame(before: seq<Tracked>, job: JobId, ghost frames: seq<int>, ghost n: nat, frame: int) returns (loaded: seq<Tracked>)
      requires Inv(View()) && n < |frames| && frames[n] == frame && AllHold(View(), before, job, frames[..n])
      ensures AllHold(View(), loaded, job, frames[..n + 1])
    {
      loaded := before;
      for k := 0 to |loaded|
        invariant loaded == before
        invariant forall m :: 0 <= m < k ==> !before[m].range.Has(frame)
      {
        if loaded[k].range.Has(frame) {
          if frame !in loaded[k].frames {
            loaded := loaded[k := loaded[k].(frames := loaded[k].frames + [frame], dirty := true)];
          }
          OnlyPlace(View(), before, job, frames, n, k);
          break;
        }
      }
      forall m | 0 <= m < |before|
        ensures Holds(View(), loaded[m], job, frames[..n + 1]) && loaded[m].id == before[m].id
      {
        StillHolds(View(), before, job, frames, n, m);
      }
    }

    method WriteBack(loaded: seq<Tracked>, job: JobId, ghost frames: seq<int>)
      requires Inv(View()) && AllHold(View(), loaded, job, frames)
      modifies this`chunks
      ensures View() == Recorded(old(View()), job, set f | f in frames)
    {
      hide Inv, Ascending, FramesWith, Ids;
      ghost var t := View();
      for k := 0 to |loaded|
        invariant chunks.Keys == t.chunks.Keys
        invariant forall id :: id in t.chunks ==>
          chunks[id] == if id in Ids(loaded[..k]) then WithFrames(t.chunks[id], job, set f | f in frames) else t.chunks[id]
      {
        WrittenBack(t, loaded[k], job, frames);
        NotYetWritten(loaded, k);
        if loaded[k].dirty {
          chunks := chunks[loaded[k].id := chunks[loaded[k].id].(frames := Ascending(set f | f in loaded[k].frames))];
        }
      }
      assert loaded[..|loaded|] == loaded;
      forall id | id in t.chunks
        ensures chunks[id] == WithFrames(t.chunks[id], job, set f | f in frames)
      {
        HeldIsListed(t, loaded, job, frames, id);
      }
      assert chunks == map id | id in t.chunks :: WithFrames(t.chunks[id], job, set f | f in frames);
    }
  }

  // ---- Facts the methods use ----

  /** The job enters its new group in submission order. */
  function Reprioritized(j: Job, priority: int): Job { j.(priority := priority, sortKey := j.submittedAt) }

  /** Setting a priority is one of the reorderings the state machine allows. */
  lemma ReprioritizingIsReorder(t: Tables, job: JobId, priority: int)
    requires job in t.jobs
    ensures t.(jobs := t.jobs[job := Reprioritized(t.jobs[job], priority)])
            == Apply(t, Reorder(map[job := Rank(priority, t.jobs[job].submittedAt)]))
  {
    assert t.jobs[job := Reprioritized(t.jobs[job], priority)] == Reranked(t.jobs, map[job := Rank(priority, t.jobs[job].submittedAt)]);
  }

  /** So is a move. */
  lemma MoveIsReorder(t: Tables, job: JobId, target: JobId, before: bool)
    requires Distinct(JobKeys(t.jobs)) && CanMove(t.jobs, job, target)
    ensures exists ranks :: t.(jobs := Moved(t.jobs, job, target, before)) == Apply(t, Reorder(ranks))
  {
    ReorderReranks(t, MoveRanks(t.jobs, job, target, before), Moved(t.jobs, job, target, before));
  }

  lemma ReorderReranks(t: Tables, ranks: map<JobId, Rank>, jobs: map<JobId, Job>)
    requires jobs == Reranked(t.jobs, ranks)
    ensures t.(jobs := jobs) == Apply(t, Reorder(ranks))
  {
  }

  function MarkedCompleted(chunks: map<ChunkId, Chunk>, job: JobId, ranges: seq<Range>, now: int): map<ChunkId, Chunk> {
    map id | id in chunks :: MarkedRow(chunks[id], job, ranges, now)
  }

  function MarkedRow(c: Chunk, job: JobId, ranges: seq<Range>, now: int): Chunk {
    if c.job == job && c.range in ranges then c.(state := Completed, completedAt := Some(now)) else c
  }

  function Renumbered(jobs: map<JobId, Job>, ids: seq<JobId>): map<JobId, Job> {
    map x | x in jobs :: if x in ids then jobs[x].(sortKey := (IndexOf(ids, x) + 1) * KEY_SPACING) else jobs[x]
  }

  lemma {:induction false} IndexInPrefix(ids: seq<JobId>, i: nat, x: JobId)
    requires i <= |ids| && x in ids[..i]
    ensures x in ids && IndexOf(ids, x) == IndexOf(ids[..i], x)
  {
  }

  lemma OneMoreRenumbered(jobs: map<JobId, Job>, ids: seq<JobId>, i: nat)
    requires NoDuplicates(ids) && i < |ids| && ids[i] in jobs
    ensures ids[i] in Renumbered(jobs, ids[..i])
    ensures var was := Renumbered(jobs, ids[..i]);
            Renumbered(jobs, ids[..i + 1]) == was[ids[i] := was[ids[i]].(sortKey := (i + 1) * KEY_SPACING)]
  {
  }

  lemma MovedIsRenumbered(jobs: map<JobId, Job>, job: JobId, target: JobId, before: bool)
    requires Distinct(JobKeys(jobs)) && CanMove(jobs, job, target)
    ensures Moved(jobs, job, target, before)
            == Renumbered(jobs[job := jobs[job].(priority := jobs[target].priority)], MovedGroup(jobs, job, target, before))
  {
    hide MovedGroup, InsertBeside, IndexOf, Sorted;
    var group := MovedGroup(jobs, job, target, before);
    var raised := jobs[job := jobs[job].(priority := jobs[target].priority)];
    SameJobs(jobs, job, target, before);
    forall x | x in jobs
      ensures Moved(jobs, job, target, before)[x] == Renumbered(raised, group)[x]
    {
      NewJob(jobs, job, target, before, x);
    }
  }

  /** No chunk of these jobs is for the node. */
  ghost predicate Passed(t: Tables, seen: seq<JobId>, node: NodeId, tags: seq<Tag>) {
    forall id :: Eligible(t, id, node, tags) ==> t.chunks[id].job !in seen
  }

  lemma OneMorePassed(t: Tables, order: seq<JobId>, i: nat, node: NodeId, tags: seq<Tag>)
    requires i < |order| && Passed(t, order[..i], node, tags)
    requires order[i] in t.jobs
    requires var required := t.jobs[order[i]].manifest.requiredTags;
             || required.None? || !AllRequired(required.value, tags)
             || NothingOpen(t, order[i], node)
    ensures Passed(t, order[..i + 1], node, tags)
  {
    assert order[..i + 1] == order[..i] + [order[i]];
    forall id | Eligible(t, id, node, tags)
      ensures t.chunks[id].job != order[i]
    {
      if t.chunks[id].job == order[i] { assert Open(t, id, order[i], node); }
    }
  }

  lemma AllPassed(t: Tables, order: seq<JobId>, node: NodeId, tags: seq<Tag>)
    requires Passed(t, order, node, tags)
    requires Lists(order, WorkKeys(t))
    ensures forall id :: !Eligible(t, id, node, tags)
  {
  }

  function GroupKeys(jobs: map<JobId, Job>, priority: int): map<JobId, Key> {
    map j | j in jobs && jobs[j].priority == priority :: JobKey(jobs[j])
  }

  lemma GroupIsDistinct(jobs: map<JobId, Job>, priority: int)
    requires forall i, j :: i in jobs && j in jobs && jobs[i].row == jobs[j].row ==> i == j
    ensures Distinct(GroupKeys(jobs, priority))
  {
  }

  lemma GroupWithoutMoved(was: map<JobId, Job>, now: map<JobId, Job>, job: JobId, target: JobId)
    requires Distinct(JobKeys(was)) && CanMove(was, job, target)
    requires now == was[job := was[job].(priority := was[target].priority)]
    requires Distinct(GroupKeys(now, was[target].priority))
    ensures var group := GroupKeys(now, was[target].priority);
            && target in Without(Sorted(group), job)
            && Without(Sorted(group), job) == Sorted(RestKeys(was, job, was[target].priority))
  {
    hide Sorted, Without, Key.Less;
    var group, rest := GroupKeys(now, was[target].priority), RestKeys(was, job, was[target].priority);
    WithoutKeepsOrder(Sorted(group), group, job);
    assert group - {job} == rest;
    SortedIsUnique(Without(Sorted(group), job), Sorted(rest), rest);
    assert target in rest;
  }

  lemma InsertedOneMore(t: Tables, job: JobId, ranges: seq<Range>, i: nat)
    requires i < |ranges|
    ensures var t1 := Inserted(t, FreshChunks(job, ranges[..i]));
            Inserted(t, FreshChunks(job, ranges[..i + 1]))
            == t1.(chunks := t1.chunks[t1.nextChunk := FreshChunk(job, ranges[i])], nextChunk := t1.nextChunk + 1)
  {
    var t1, t2 := Inserted(t, FreshChunks(job, ranges[..i])), Inserted(t, FreshChunks(job, ranges[..i + 1]));
    assert t2.chunks == t1.chunks[t1.nextChunk := FreshChunk(job, ranges[i])];
  }

  predicate Open(t: Tables, id: ChunkId, job: JobId, node: NodeId) {
    && id in t.chunks && t.chunks[id].job == job && t.chunks[id].state == Pending
    && (node != "" ==> node !in t.chunks[id].failedOn)
  }

  ghost predicate NothingOpen(t: Tables, job: JobId, node: NodeId) {
    forall id :: !Open(t, id, job, node)
  }

  predicate ComesFirst(t: Tables, x: ChunkId, y: ChunkId)
    requires x in t.chunks && y in t.chunks
  {
    t.chunks[x].range.first < t.chunks[y].range.first || (t.chunks[x].range.first == t.chunks[y].range.first && x < y)
  }

  /** Active jobs with pending chunks. */
  function WorkKeys(t: Tables): map<JobId, Key> {
    map j | j in t.jobs && t.jobs[j].status == Active && HasChunk(t, j, {Pending}) :: JobKey(t.jobs[j])
  }

  lemma WorkKeysDistinct(t: Tables)
    requires Inv(t)
    ensures Distinct(WorkKeys(t))
  {
  }

  lemma FoundIsNext(t: Tables, node: NodeId, tags: seq<Tag>, order: seq<JobId>, i: nat, found: ChunkId)
    requires Inv(t) && Lists(order, WorkKeys(t)) && i < |order| && Passed(t, order[..i], node, tags)
    requires order[i] in WorkKeys(t) && t.jobs[order[i]].manifest.requiredTags.Some?
    requires AllRequired(t.jobs[order[i]].manifest.requiredTags.value, tags)
    requires Open(t, found, order[i], node)
    requires forall id :: Open(t, id, order[i], node) ==> id == found || ComesFirst(t, found, id)
    ensures IsNext(t, found, node, tags)
  {
    forall other | Eligible(t, other, node, tags) && other != found
      ensures CandidateLess(t, found, other)
    {
      var job := t.chunks[other].job;
      assert HasChunk(t, job, {Pending});
      assert job in WorkKeys(t) && job in order;
      var k := IndexOf(order, job);
      if k == i {
        assert Open(t, other, order[i], node);
      } else {
        NotPassed(order, i, k);
        assert WorkKeys(t)[order[i]].Less(WorkKeys(t)[order[k]]);
      }
    }
  }

  lemma NotPassed(order: seq<JobId>, i: nat, k: nat)
    requires i < |order| && k < |order| && k != i && order[k] !in order[..i]
    ensures i < k
  {
  }

  lemma FirstOfRange(t: Tables, r: Report)
    requires Inv(t) && AnyCurrent(t, r)
    ensures exists id :: id in t.chunks && IsLowest(t, id, r.job, r.range)
  {
  }

  /** The rows once the failing node is on the blacklist. */
  function Marked(t: Tables, r: Report): map<ChunkId, Chunk> {
    map id | id in t.chunks ::
      if IsLowest(t, id, r.job, r.range) then Blacklisting(t.chunks[id], r.node) else t.chunks[id]
  }

  function Counted(chunks: map<ChunkId, Chunk>, r: Report, maxRetries: int): map<ChunkId, Chunk> {
    map id | id in chunks ::
      if chunks[id].job == r.job && chunks[id].range == r.range && chunks[id].state == Assigned
      then FailedOnce(chunks[id], maxRetries) else chunks[id]
  }

  /** The chunk has failed once more: for good if and only if that makes as many times as the limit, and
      otherwise it is back in the pool. */
  predicate OneMoreFailure(c: Chunk, d: Chunk, maxRetries: int) {
    && d.retries == c.retries + 1
    && (d.state == Failed <==> c.retries + 1 >= maxRetries)
    && (d.state == Failed || (d.state == Pending && d.assignee == None && d.assignedAt == None))
  }

  /** A failure counted against a given limit: the row the report is current for, if any, gets the node
      on its blacklist and one failure more; nothing else changes. */
  function FailedWithin(t: Tables, r: Report, maxRetries: int): Tables {
    t.(chunks := map id | id in t.chunks ::
         if Current(t.chunks[id], r) then FailedOnce(Blacklisting(t.chunks[id], r.node), maxRetries) else t.chunks[id])
  }

  lemma FailsOnceMore(t: Tables, r: Report, maxRetries: int)
    ensures forall id :: id in t.chunks && Current(t.chunks[id], r) ==>
              AnyCurrent(t, r) && OneMoreFailure(t.chunks[id], FailedWithin(t, r, maxRetries).chunks[id], maxRetries)
  {
  }

  lemma FailedInTwoSteps(t: Tables, r: Report, maxRetries: int)
    requires Inv(t) && AnyCurrent(t, r)
    ensures t.(chunks := Counted(Marked(t, r), r, maxRetries)) == FailedWithin(t, r, maxRetries)
  {
    hide Inv, FailedOnce, Blacklisting;
    var chunks := Counted(Marked(t, r), r, maxRetries);
    forall id | id in t.chunks
      ensures chunks[id] == FailedWithin(t, r, maxRetries).chunks[id]
    {
      MarkedIffCurrent(t, r, id);
      BlacklistingKeeps(t.chunks[id], r.node);
    }
    assert chunks == FailedWithin(t, r, maxRetries).chunks;
  }

  /** When some row is current for a report, that row and no other has its job and range. */
  lemma MarkedIffCurrent(t: Tables, r: Report, id: ChunkId)
    requires Inv(t) && AnyCurrent(t, r) && id in t.chunks
    ensures Current(t.chunks[id], r) <==> t.chunks[id].job == r.job && t.chunks[id].range == r.range
    ensures Current(t.chunks[id], r) <==> IsLowest(t, id, r.job, r.range)
  {
    hide Inv;
    var at :| at in t.chunks && Current(t.chunks[at], r);
    forall other | other in t.chunks && t.chunks[other].job == r.job && t.chunks[other].range == r.range
      ensures other == at
    {
      RangeNamesRow(t, other, at);
    }
  }

  lemma BlacklistingKeeps(c: Chunk, node: NodeId)
    ensures var b := Blacklisting(c, node); b.job == c.job && b.range == c.range && b.state == c.state
  {
  }

  lemma NotCurrentNotFailed(t: Tables, r: Report, maxRetries: int)
    ensures !AnyCurrent(t, r) ==> FailedWithin(t, r, maxRetries) == t
  {
    if !AnyCurrent(t, r) {
      assert forall id :: id in t.chunks ==> FailedWithin(t, r, maxRetries).chunks[id] == t.chunks[id];
      assert FailedWithin(t, r, maxRetries).chunks == t.chunks;
    }
  }

  /** Under the job's own limit that is the failure step. */
  lemma FailedWithinOwnLimit(t: Tables, r: Report)
    requires Inv(t)
    ensures FailedWithin(t, r, MaxRetries(t, r.job)) == Apply(t, Fail(r))
  {
    hide Inv, FailedOnce, Blacklisting;
    var limit := MaxRetries(t, r.job);
    if AnyCurrent(t, r) {
      forall id | id in t.chunks
        ensures FailedBy(t, id, r) == FailedWithin(t, r, limit).chunks[id]
      {
        MarkedIffCurrent(t, r, id);
      }
      assert FailedWithin(t, r, limit).chunks == Apply(t, Fail(r)).chunks;
    } else {
      NotCurrentNotFailed(t, r, limit);
    }
  }

  lemma RecordedNowhere(t: Tables, job: JobId, frames: set<int>)
    requires Inv(t)
    requires forall id, f :: id in t.chunks && t.chunks[id].job == job && f in frames ==> !t.chunks[id].range.Has(f)
    ensures Recorded(t, job, frames) == t
  {
    forall id | id in t.chunks
      ensures WithFrames(t.chunks[id], job, frames) == t.chunks[id]
    {
      FramesAreUnion(t.chunks[id], frames, t.chunks[id].frames);
    }
    assert Recorded(t, job, frames).chunks == t.chunks;
  }

  lemma RecordedInOneRow(t: Tables, job: JobId, frame: int, id: ChunkId)
    requires Inv(t) && id in t.chunks && t.chunks[id].job == job && t.chunks[id].range.Has(frame)
    ensures var frames := t.chunks[id].frames;
            Recorded(t, job, {frame})
            == WithRow(t, id, t.chunks[id].(frames := if frame in frames then frames else Ascending((set f | f in frames) + {frame})))
  {
    forall other | other in t.chunks && other != id
      ensures WithFrames(t.chunks[other], job, {frame}) == t.chunks[other]
    {
      if t.chunks[other].job == job {
        assert !t.chunks[id].range.Overlaps(t.chunks[other].range);
        FramesAreUnion(t.chunks[other], {frame}, t.chunks[other].frames);
      }
    }
    var c, batch := t.chunks[id], {frame};
    var news := set f | f in batch && c.range.Has(f) && f !in c.frames;
    assert news == if frame in c.frames then {} else {frame};
    var row := c.(frames := if frame in c.frames then c.frames else Ascending((set f | f in c.frames) + {frame}));
    assert FramesWith(c, batch) == row.frames;
    assert Recorded(t, job, {frame}).chunks == t.chunks[id := row];
  }

  /** The in-memory chunk has its stored frames and those of the batch so far that fall in its range. */
  ghost predicate Holds(t: Tables, d: Tracked, job: JobId, frames: seq<int>) {
    && d.id in t.chunks && t.chunks[d.id].job == job && d.range == t.chunks[d.id].range
    && (forall f :: f in d.frames <==> f in t.chunks[d.id].frames || (f in frames && d.range.Has(f)))
    && (!d.dirty ==> d.frames == t.chunks[d.id].frames)
  }

  function Ids(loaded: seq<Tracked>): (ids: set<ChunkId>)
    ensures loaded == [] ==> ids == {}
  {
    set d | d in loaded :: d.id
  }

  ghost predicate AllHold(t: Tables, loaded: seq<Tracked>, job: JobId, frames: seq<int>) {
    && (forall k :: 0 <= k < |loaded| ==> Holds(t, loaded[k], job, frames))
    && (forall k, m :: 0 <= k < m < |loaded| ==> loaded[k].id != loaded[m].id)
    && (forall id :: id in t.chunks && t.chunks[id].job == job ==> exists k :: 0 <= k < |loaded| && loaded[k].id == id)
  }

  lemma NotYetWritten(loaded: seq<Tracked>, k: nat)
    requires k < |loaded| && forall i, j :: 0 <= i < j < |loaded| ==> loaded[i].id != loaded[j].id
    ensures loaded[k].id !in Ids(loaded[..k]) && Ids(loaded[..k + 1]) == Ids(loaded[..k]) + {loaded[k].id}
  {
    assert loaded[..k + 1] == loaded[..k] + [loaded[k]];
  }

  lemma HeldIsListed(t: Tables, loaded: seq<Tracked>, job: JobId, frames: seq<int>, id: ChunkId)
    requires AllHold(t, loaded, job, frames)
    ensures id in Ids(loaded) <==> id in t.chunks && t.chunks[id].job == job
  {
    if id in t.chunks && t.chunks[id].job == job {
      var k :| 0 <= k < |loaded| && loaded[k].id == id;
      assert loaded[k] in loaded;
    }
  }

  lemma StillHolds(t: Tables, loaded: seq<Tracked>, job: JobId, frames: seq<int>, n: nat, m: nat)
    requires n < |frames| && AllHold(t, loaded, job, frames[..n]) && m < |loaded|
    ensures var d, frame := loaded[m], frames[n];
            if d.range.Has(frame) && frame !in d.frames
            then Holds(t, d.(frames := d.frames + [frame], dirty := true), job, frames[..n + 1])
            else Holds(t, d, job, frames[..n + 1])
  {
    assert frames[..n + 1] == frames[..n] + [frames[n]];
  }

  lemma OnlyPlace(t: Tables, loaded: seq<Tracked>, job: JobId, frames: seq<int>, n: nat, k: nat)
    requires Inv(t) && n < |frames| && AllHold(t, loaded, job, frames[..n]) && k < |loaded| && loaded[k].range.Has(frames[n])
    ensures forall m :: 0 <= m < |loaded| && m != k ==> !loaded[m].range.Has(frames[n])
  {
  }

  lemma WrittenBack(t: Tables, d: Tracked, job: JobId, frames: seq<int>)
    requires Inv(t) && Holds(t, d, job, frames)
    ensures FramesWith(t.chunks[d.id], set f | f in frames)
            == if d.dirty then Ascending(set f | f in d.frames) else t.chunks[d.id].frames
  {
    AscendingLists(set f | f in d.frames);
    FramesAreUnion(t.chunks[d.id], set f | f in frames, if d.dirty then Ascending(set f | f in d.frames) else t.chunks[d.id].frames);
  }
}
