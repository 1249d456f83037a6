/** What each operation of the leader does, column by column. The other modules reason about these
    operations through named effects; here the effects are told in the columns themselves. */
module StepLaws {
  import opened Wrappers
  import opened Ordering
  import opened ChunkPlan
  import opened FarmTables
  import opened TableInvariants

  /** Only rows of these ids may differ. */
  ghost predicate OnlyRows(t: Tables, t': Tables, ids: set<ChunkId>) {
    t'.chunks.Keys == t.chunks.Keys && forall id :: id in t.chunks && id !in ids ==> t'.chunks[id] == t.chunks[id]
  }

  /** A row in the pool, nobody's. */
  predicate InPool(c: Chunk) { c.state == Pending && c.assignee.None? && c.assignedAt.None? }

  /** The columns that say which chunk of which job a row is. */
  predicate SameChunk(c: Chunk, d: Chunk) { c.job == d.job && c.range == d.range }

  // ---- Reports ----

  /** A completion report completes the row of its job and range that is in flight, with the node that
      reports and under its stamp, each where the report names one; it changes nothing else at all. */
  lemma CompleteLaw(t: Tables, r: Report, at: int, id: ChunkId)
    requires id in t.chunks
    ensures var t' := Apply(t, Complete(r, at)); var c := t.chunks[id];
            && t'.jobs == t.jobs && t'.nextRow == t.nextRow && t'.nextChunk == t.nextChunk && t'.chunks.Keys == t.chunks.Keys
            && t'.chunks[id] ==
               if c.job == r.job && c.range.first == r.range.first && c.range.last == r.range.last && c.state == Assigned
                  && (r.node != "" ==> c.assignee.Some? && c.assignee.value == r.node) && (r.epoch >= 0 ==> c.epoch == r.epoch)
               then c.(state := Completed, completedAt := Some(at)) else c
  {
  }

  /** A failure report of the row's node under its stamp adds one to its counter, and the node, if it is
      named, to its blacklist. The chunk is tried again, by anybody, while it has failed less often than its
      job allows - three times, when the job's manifest does not say - and has failed for good after that. */
  lemma FailLaw(t: Tables, r: Report, id: ChunkId)
    requires Inv(t) && id in t.chunks && SameChunk(t.chunks[id], FreshChunk(r.job, r.range)) && t.chunks[id].state == Assigned
    requires r.node == "" || t.chunks[id].assignee == Some(r.node)
    requires r.epoch < 0 || t.chunks[id].epoch == r.epoch
    ensures var t' := Apply(t, Fail(r)); var j := t.jobs[r.job].manifest;
            r.job in t.jobs && t'.jobs == t.jobs && OnlyRows(t, t', {id})
            && var c, d, limit := t.chunks[id], t'.chunks[id], if j.plan.Some? then j.plan.value.maxRetries else 3;
            && d.retries == c.retries + 1
            && (d.state == Failed <==> c.retries + 1 >= limit)
            && (d.state != Failed ==> InPool(d))
            && (forall n :: n in d.failedOn <==> n in c.failedOn || (n == r.node && n != ""))
            && SameChunk(c, d) && d.frames == c.frames && d.epoch == c.epoch && d.completedAt == c.completedAt
  {
    hide RowOk, RangesDisjoint;
    RowsAreKnown(t, id);
    assert Current(t.chunks[id], r);
    forall other | other in t.chunks && SameChunk(t.chunks[other], t.chunks[id])
      ensures other == id
    {
      RangeNamesRow(t, other, id);
    }
    assert IsLowest(t, id, r.job, r.range);
  }

  lemma RowsAreKnown(t: Tables, id: ChunkId)
    requires Inv(t) && id in t.chunks
    ensures id < t.nextChunk && t.chunks[id].job in t.jobs
  {
  }

  /** Any other failure report changes nothing. */
  lemma FailIgnoredLaw(t: Tables, r: Report)
    requires forall id :: id in t.chunks && t.chunks[id].job == r.job && t.chunks[id].range == r.range && t.chunks[id].state == Assigned ==>
               (r.node != "" && t.chunks[id].assignee != Some(r.node)) || (r.epoch >= 0 && t.chunks[id].epoch != r.epoch)
    ensures Apply(t, Fail(r)) == t
  {
  }

  /** A frame report under the job's epoch - a missing job's is 0 - or without one adds to each chunk of the
      job the frames that lie in it; any other changes nothing. */
  lemma FramesLaw(t: Tables, job: JobId, epoch: int, batch: seq<int>, id: ChunkId)
    requires Inv(t) && id in t.chunks
    ensures var t' := Apply(t, AddFrames(job, epoch, batch)); var c := t.chunks[id];
            && t'.jobs == t.jobs && t'.chunks.Keys == t.chunks.Keys
            && (epoch >= 0 && epoch != (if job in t.jobs then t.jobs[job].epoch else 0) ==> t' == t)
            && (c.job != job ==> t'.chunks[id] == c)
            && (c.job == job && (epoch < 0 || epoch == t.jobs[job].epoch) ==>
                  && t'.chunks[id] == c.(frames := t'.chunks[id].frames)
                  && (forall f :: f in t'.chunks[id].frames <==> f in c.frames || (f in batch && c.range.first <= f <= c.range.last))
                  && (forall i, j :: 0 <= i < j < |t'.chunks[id].frames| ==> t'.chunks[id].frames[i] < t'.chunks[id].frames[j]))
  {
    RowsAreKnown(t, id);
    FramesStayFit(t.chunks[id], set f | f in batch);
  }

  // ---- Dispatch ----

  /** A chunk can be assigned only from the pool, in an active job, to a node with every tag that the job's
      manifest asks for and that is not on the chunk's blacklist; it is then the node's, stamped with its job's
      epoch. Otherwise nothing changes. */
  lemma AssignLaw(t: Tables, id: ChunkId, node: NodeId, tags: seq<Tag>, at: int)
    ensures var t' := Apply(t, Assign(id, node, tags, at));
            if id in t.chunks && t.chunks[id].state == Pending
               && t.chunks[id].job in t.jobs && t.jobs[t.chunks[id].job].status == Active
               && t.jobs[t.chunks[id].job].manifest.requiredTags.Some?
               && (forall tag :: tag in t.jobs[t.chunks[id].job].manifest.requiredTags.value ==> tag in tags)
               && !(node != "" && node in t.chunks[id].failedOn)
            then && OnlyRows(t, t', {id}) && t'.jobs == t.jobs
                 && t'.chunks[id] == t.chunks[id].(state := Assigned, assignee := Some(node), assignedAt := Some(at),
                                                  epoch := t.jobs[t.chunks[id].job].epoch)
            else t' == t
  {
  }

  /** A revert puts the chunk of that range back into the pool, whatever its state. */
  lemma RevertLaw(t: Tables, job: JobId, range: Range, id: ChunkId)
    requires id in t.chunks
    ensures var t' := Apply(t, Revert(job, range)); var c := t.chunks[id];
            && t'.jobs == t.jobs && t'.chunks.Keys == t.chunks.Keys
            && if c.job == job && c.range.first == range.first && c.range.last == range.last
               then InPool(t'.chunks[id]) && t'.chunks[id] == c.(state := Pending, assignee := None, assignedAt := None)
               else t'.chunks[id] == c
  {
  }

  /** Reclaiming from a node puts exactly the chunks that are in flight there back into the pool. */
  lemma ReclaimLaw(t: Tables, node: NodeId, id: ChunkId)
    requires id in t.chunks
    ensures var t' := Apply(t, Reclaim(node)); var c := t.chunks[id];
            && t'.jobs == t.jobs && t'.chunks.Keys == t.chunks.Keys
            && t'.chunks[id] == if c.state == Assigned && c.assignee.Some? && c.assignee.value == node
                                then c.(state := Pending, assignee := None, assignedAt := None) else c
  {
  }

  // ---- Orders of the user ----

  /** Stopping reaches chunks in the pool and in flight. They are stopped: in nobody's hands, and not in the
      pool either. */
  lemma StopLaw(t: Tables, id: ChunkId)
    ensures var t' := Apply(t, Stop(id));
            && t'.jobs == t.jobs && OnlyRows(t, t', {id})
            && (id in t.chunks && t.chunks[id].state in {Completed, Failed, Stopped} ==> t' == t)
            && (id in t.chunks && t.chunks[id].state in {Pending, Assigned} ==>
                  t'.chunks[id] == t.chunks[id].(state := Stopped, assignee := None, assignedAt := None))
  {
  }

  /** Reassigning reaches chunks in flight, failed or stopped. Without a node they go back to the pool and a
      job that is over is active again; with a node they are its, under the stamp they had, and no job changes. */
  lemma ReassignLaw(t: Tables, id: ChunkId, node: NodeId, at: int)
    requires Inv(t)
    ensures var t' := Apply(t, Reassign(id, node, at));
            && OnlyRows(t, t', {id})
            && (id !in t.chunks || t.chunks[id].state in {Pending, Completed} ==> t' == t)
            && (id in t.chunks && t.chunks[id].state in {Assigned, Failed, Stopped} ==>
                  && var c := t.chunks[id]; var j := t.jobs[c.job];
                  && c.job in t.jobs
                  && t'.chunks[id] == (if node == "" then c.(state := Pending, assignee := None, assignedAt := None)
                                       else c.(state := Assigned, assignee := Some(node), assignedAt := Some(at)))
                  && t'.jobs == (if node == "" && j.status in {Finished, Broken} then t.jobs[c.job := j.(status := Active)] else t.jobs))
  {
    if id in t.chunks { RowsAreKnown(t, id); }
  }

  /** Retrying puts a job's failed chunks back into the pool with nothing counted and nothing rendered, and
      the blacklist as it was. The job is active again exactly when there was one. */
  lemma RetryLaw(t: Tables, job: JobId, id: ChunkId)
    requires id in t.chunks
    ensures var t' := Apply(t, RetryFailed(job)); var c := t.chunks[id];
            && t'.chunks.Keys == t.chunks.Keys
            && t'.chunks[id] == (if c.job == job && c.state == Failed
                                 then c.(state := Pending, assignee := None, assignedAt := None, retries := 0, frames := []) else c)
            && (c.job == job && c.state == Failed && job in t.jobs ==> t'.jobs == t.jobs[job := t.jobs[job].(status := Active)])
            && ((forall other :: other in t.chunks && t.chunks[other].job == job ==> t.chunks[other].state != Failed) ==> t' == t)
  {
    if c :| c in t.chunks && t.chunks[c].job == job && t.chunks[c].state == Failed {
      assert HasChunk(t, job, {Failed});
    }
  }

  /** Requeueing a job puts all its chunks back into the pool as new, but under their stamps, and makes it
      active. */
  lemma RequeueLaw(t: Tables, job: JobId, id: ChunkId)
    requires id in t.chunks && job in t.jobs
    ensures var t' := Apply(t, RequeueAll(job)); var c, asNew := t.chunks[id], FreshChunk(t.chunks[id].job, t.chunks[id].range);
            && t'.chunks.Keys == t.chunks.Keys
            && t'.jobs == t.jobs[job := t.jobs[job].(status := Active)]
            && t'.chunks[id] == (if c.job == job then asNew.(epoch := c.epoch) else c)
  {
  }

  /** A row nobody has touched yet. */
  lemma FreshLaw(job: JobId, range: Range)
    ensures var c := FreshChunk(job, range);
            InPool(c) && c.job == job && c.range == range && c.completedAt.None? && c.retries == 0 && c.frames == [] && c.failedOn == [] && c.epoch == 0
  {
  }

  lemma SteerLaw(t: Tables, job: JobId)
    requires job in t.jobs
    ensures Apply(t, Steer(job, Pause)).jobs[job].status == Paused && Apply(t, Steer(job, Cancel)).jobs[job].status == Cancelled
    ensures Apply(t, Steer(job, Resume)).jobs[job].status == Active && Apply(t, Steer(job, Archive)).jobs[job].status == Archived
    ensures forall control :: var t' := Apply(t, Steer(job, control));
              t' == t.(jobs := t.jobs[job := t.jobs[job].(status := t'.jobs[job].status)])
  {
  }

  /** Deleting a job takes it and exactly its chunks. */
  lemma DeleteLaw(t: Tables, job: JobId)
    ensures var t' := Apply(t, Delete(job));
            && (forall j :: j in t'.jobs <==> j in t.jobs && j != job) && (forall j :: j in t'.jobs ==> t'.jobs[j] == t.jobs[j])
            && (forall id :: id in t'.chunks <==> id in t.chunks && t.chunks[id].job != job)
            && (forall id :: id in t'.chunks ==> t'.chunks[id] == t.chunks[id])
            && t'.nextRow == t.nextRow && t'.nextChunk == t.nextChunk
  {
  }

  // ---- New jobs and edits ----

  /** Rows are inserted under new ids, one each, and the others stay. */
  lemma InsertedLaw(t: Tables, t1: Tables, rows: seq<Chunk>)
    requires t1.nextChunk == t.nextChunk && (forall id :: id in t.chunks ==> id < t.nextChunk) && t1.chunks.Keys <= t.chunks.Keys
    ensures var t', n := Inserted(t1, rows), t.nextChunk;
            && (forall id :: id in t1.chunks ==> id in t'.chunks && t'.chunks[id] == t1.chunks[id])
            && (forall i :: 0 <= i < |rows| ==> IsRow(t, t', n + i, rows[i]))
            && (forall id :: id in t'.chunks && id !in t.chunks ==> n <= id < n + |rows| && t'.chunks[id] == rows[id - n])
            && (forall id :: id in t.chunks && id !in t1.chunks ==> id !in t'.chunks)
            && t'.jobs == t1.jobs
  {
    hide Inserted;
    var t', n := Inserted(t1, rows), t.nextChunk;
    forall i | 0 <= i < |rows|
      ensures IsRow(t, t', n + i, rows[i])
    {
      InsertedAt(t1, rows, n + i);
      assert n + i !in t.chunks;
    }
    forall id
      ensures id in t1.chunks ==> id in t'.chunks && t'.chunks[id] == t1.chunks[id]
      ensures id in t'.chunks && id !in t1.chunks ==> n <= id < n + |rows| && t'.chunks[id] == rows[id - n]
    {
      InsertedAt(t1, rows, id);
    }
    InsertedAt(t1, rows, n);
  }

  lemma InsertedAt(t: Tables, rows: seq<Chunk>, id: ChunkId)
    ensures var t' := Inserted(t, rows); var isNew := t.nextChunk <= id < t.nextChunk + |rows|;
            && t'.jobs == t.jobs
            && (id in t'.chunks <==> id in t.chunks || isNew)
            && (isNew ==> t'.chunks[id] == rows[id - t.nextChunk])
            && (id in t.chunks && !isNew ==> t'.chunks[id] == t.chunks[id])
  {
  }

  predicate IsRow(t: Tables, t': Tables, id: ChunkId, c: Chunk) { id !in t.chunks && id in t'.chunks && t'.chunks[id] == c }

  ghost predicate HasNewChunkFor(t: Tables, t': Tables, frame: int) {
    exists id :: id in t'.chunks && id !in t.chunks && t'.chunks[id].range.first <= frame <= t'.chunks[id].range.last
  }

  /** The new rows of the step are pending chunks of the job that together have exactly its frames. */
  ghost predicate NewChunksTile(t: Tables, t': Tables, job: JobId, p: Plan) {
    && (forall id :: id in t'.chunks && id !in t.chunks ==> t'.chunks[id] == FreshChunk(job, t'.chunks[id].range))
    && (forall frame :: HasNewChunkFor(t, t', frame) <==> p.size > 0 && p.first <= frame <= p.last)
  }

  lemma PlannedRowsTile(t: Tables, t1: Tables, job: JobId, p: Plan)
    requires t1.nextChunk == t.nextChunk && (forall id :: id in t.chunks ==> id < t.nextChunk) && t1.chunks.Keys <= t.chunks.Keys
    ensures NewChunksTile(t, Inserted(t1, PlannedChunks(job, p)), job, p)
  {
    hide Chunks, Inserted;
    var cs, rows := Chunks(p.first, p.last, p.size), PlannedChunks(job, p);
    var t' := Inserted(t1, rows);
    InsertedLaw(t, t1, rows);
    PlanCovers(p);
    forall frame
      ensures HasNewChunkFor(t, t', frame) <==> Covers(cs, frame)
    {
      if Covers(cs, frame) {
        var i :| 0 <= i < |cs| && cs[i].Has(frame);
        assert IsRow(t, t', t.nextChunk + i, rows[i]);
      }
      if id :| id in t'.chunks && id !in t.chunks && t'.chunks[id].range.first <= frame <= t'.chunks[id].range.last {
        assert cs[id - t.nextChunk].Has(frame);
      }
    }
  }

  lemma PlanCovers(p: Plan)
    ensures forall frame :: Covers(Chunks(p.first, p.last, p.size), frame) <==> p.size > 0 && p.first <= frame <= p.last
  {
    if p.size > 0 { ChunksTile(p.first, p.last, p.size); }
  }

  /** A submission with a readable frame plan and a new id adds an active job at epoch 0, last by submission
      time in its group, and its chunks; any other changes nothing. */
  lemma SubmitLaw(t: Tables, job: JobId, m: Manifest, priority: int, at: int)
    requires Inv(t)
    ensures var t' := Apply(t, Submit(job, m, priority, at));
            && (m.plan.None? || job in t.jobs ==> t' == t)
            && (m.plan.Some? && job !in t.jobs ==>
                  && t'.jobs == t.jobs[job := Job(m, Active, priority, at, at, 0, t.nextRow)]
                  && (forall id :: id in t.chunks ==> id in t'.chunks && t'.chunks[id] == t.chunks[id])
                  && NewChunksTile(t, t', job, m.plan.value))
  {
    hide RowOk, RangesDisjoint, PlannedChunks, NewChunksTile, Inserted;
    if m.plan.Some? && job !in t.jobs {
      var t1 := t.(jobs := t.jobs[job := Job(m, Active, priority, at, at, 0, t.nextRow)], nextRow := t.nextRow + 1);
      PlannedRowsTile(t, t1, job, m.plan.value);
      InsertedLaw(t, t1, PlannedChunks(job, m.plan.value));
      assert Apply(t, Submit(job, m, priority, at)) == Inserted(t1, PlannedChunks(job, m.plan.value));
    }
  }

  /** A copy has one new row for each chunk of its source: completed if the source had that range completed,
      and else pending and as new. */
  lemma ResubmitLaw(t: Tables, source: JobId, job: JobId, at: int)
    requires Inv(t) && source in t.jobs && t.jobs[source].manifest.plan.Some? && job !in t.jobs
    requires exists id :: id in t.chunks && t.chunks[id].job == source && t.chunks[id].state != Completed
    ensures var t' := Apply(t, Resubmit(source, job, at)); var s := t.jobs[source];
            && t'.jobs == t.jobs[job := Job(s.manifest, Active, s.priority, at, at, 0, t.nextRow)]
            && (forall id :: id in t.chunks ==> id in t'.chunks && t'.chunks[id] == t.chunks[id])
            && (forall id :: id in t.chunks && t.chunks[id].job == source ==>
                  exists x :: x in t'.chunks && x !in t.chunks && t'.chunks[x].range == t.chunks[id].range)
            && (forall x :: x in t'.chunks && x !in t.chunks ==> IsCopy(t, source, job, at, t'.chunks[x]))
  {
    hide RowOk, RangesDisjoint, Inserted, CopiedChunks, IsCopy;
    var id0 :| id0 in t.chunks && t.chunks[id0].job == source && t.chunks[id0].state != Completed;
    assert HasChunk(t, source, {Pending, Assigned, Failed, Stopped});
    var rows := CopiedChunks(t, source, job, at);
    var t1 := t.(jobs := t.jobs[job := Job(t.jobs[source].manifest, Active, t.jobs[source].priority, at, at, 0, t.nextRow)], nextRow := t.nextRow + 1);
    var t' := Inserted(t1, rows);
    InsertedLaw(t, t1, rows);
    forall id | id in t.chunks && t.chunks[id].job == source
      ensures exists x :: x in t'.chunks && x !in t.chunks && t'.chunks[x].range == t.chunks[id].range
    {
      var i := EachIsCopied(t, source, job, at, id);
      assert IsRow(t, t', t.nextChunk + i, rows[i]);
    }
    forall x | x in t'.chunks && x !in t.chunks
      ensures IsCopy(t, source, job, at, t'.chunks[x])
    {
      CopiedRowLaw(t, source, job, at, x - t.nextChunk);
    }
  }

  lemma EachIsCopied(t: Tables, source: JobId, job: JobId, at: int, id: ChunkId) returns (i: nat)
    requires id in t.chunks && t.chunks[id].job == source
    ensures i < |CopiedChunks(t, source, job, at)| && CopiedChunks(t, source, job, at)[i].range == t.chunks[id].range
  {
    var order := ChunkOrder(t, source);
    assert Lists(order, ChunkKeys(t, source)) && id in order;
    i :| i < |order| && order[i] == id;
  }

  ghost predicate IsCopy(t: Tables, source: JobId, job: JobId, at: int, d: Chunk) {
    exists id :: && id in t.chunks && t.chunks[id].job == source && t.chunks[id].range == d.range
                 && d == if t.chunks[id].state == Completed
                         then FreshChunk(job, d.range).(state := Completed, completedAt := Some(at)) else FreshChunk(job, d.range)
  }

  lemma CopiedRowLaw(t: Tables, source: JobId, job: JobId, at: int, i: nat)
    requires Inv(t) && i < |CopiedChunks(t, source, job, at)|
    ensures IsCopy(t, source, job, at, CopiedChunks(t, source, job, at)[i])
  {
    hide RowOk;
    var order := ChunkOrder(t, source);
    assert order[i] in order && order[i] in ChunkKeys(t, source);
    var id := order[i];
    forall other | other in t.chunks && t.chunks[other].job == source && t.chunks[other].range == t.chunks[id].range
      ensures other == id
    {
      RangeNamesRow(t, other, id);
    }
  }

  /** A job with everything rendered, without a readable plan, or under a taken id is not copied. */
  lemma ResubmitRefusedLaw(t: Tables, source: JobId, job: JobId, at: int)
    requires source !in t.jobs || t.jobs[source].manifest.plan.None? || job in t.jobs
             || forall id :: id in t.chunks && t.chunks[id].job == source ==> t.chunks[id].state == Completed
    ensures Apply(t, Resubmit(source, job, at)) == t
  {
  }

  /** Every edit takes over manifest and priority, and the place that the submission time gives the job in its
      group. Restarting also raises the epoch by one, makes the job active and withdraws exactly what is in
      flight; starting over raises it, makes the job active and replaces all its chunks. */
  lemma EditLaw(t: Tables, job: JobId, m: Manifest, mode: EditMode, priority: int)
    requires Inv(t)
    ensures var t' := Apply(t, Edit(job, m, mode, priority));
            && (m.plan.None? || job !in t.jobs ==> t' == t)
            && (m.plan.Some? && job in t.jobs ==>
                  && var was := t.jobs[job];
                  && var kept := Job(m, was.status, priority, was.submittedAt, was.submittedAt, was.epoch, was.row);
                  && t'.jobs == t.jobs[job := if mode == Continue then kept else kept.(epoch := was.epoch + 1, status := Active)]
                  && (mode == Continue ==> t'.chunks == t.chunks)
                  && (mode == Restart ==> t'.chunks.Keys == t.chunks.Keys && forall id :: id in t.chunks ==>
                        t'.chunks[id] == if t.chunks[id].job == job && t.chunks[id].state == Assigned
                                         then t.chunks[id].(state := Pending, assignee := None, assignedAt := None) else t.chunks[id])
                  && (mode == StartOver ==>
                        && NewChunksTile(t, t', job, m.plan.value)
                        && forall id :: id in t.chunks ==>
                             (id in t'.chunks <==> t.chunks[id].job != job) && (id in t'.chunks ==> t'.chunks[id] == t.chunks[id])))
  {
    hide RowOk, RangesDisjoint, PlannedChunks, NewChunksTile, Inserted;
    if m.plan.Some? && job in t.jobs && mode == StartOver {
      var was := t.jobs[job];
      var bumped := was.(manifest := m, priority := priority, sortKey := was.submittedAt).(epoch := was.epoch + 1, status := Active);
      var t1 := t.(jobs := t.jobs[job := bumped], chunks := OfOthers(t.chunks, job));
      PlannedRowsTile(t, t1, job, m.plan.value);
      InsertedLaw(t, t1, PlannedChunks(job, m.plan.value));
    }
  }

  /** A reordering changes the ranks of the jobs that it names and nothing else. */
  lemma ReorderLaw(t: Tables, ranks: map<JobId, Rank>, j: JobId)
    requires j in t.jobs
    ensures var t' := Apply(t, Reorder(ranks)); var was := t.jobs[j];
            && t'.chunks == t.chunks && t'.jobs.Keys == t.jobs.Keys
            && t'.jobs[j] == Job(was.manifest, was.status, if j in ranks then ranks[j].priority else was.priority, was.submittedAt,
                                 if j in ranks then ranks[j].sortKey else was.sortKey, was.epoch, was.row)
  {
  }
}
