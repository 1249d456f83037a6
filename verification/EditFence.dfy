/** The edit fence: after a restart or start-over edit, nothing rendered for the old version of a
    job can touch its chunks again. */
module EditFence {
  import opened Wrappers
  import opened ChunkPlan
  import opened FarmTables
  import opened TableInvariants

  /** Every chunk of the job that is in flight carries the job's current epoch. */
  ghost predicate FenceUp(t: Tables, job: JobId) {
    forall id :: id in t.chunks && t.chunks[id].job == job && t.chunks[id].state == Assigned ==>
      t.chunks[id].epoch == JobEpoch(t, job)
  }

  /** Whatever a worker reports under this stamp - done, failed, or frames finished - changes
      nothing. */
  ghost predicate Inert(t: Tables, r: Report) {
    && (forall at :: Apply(t, Complete(r, at)) == t)
    && Apply(t, Fail(r)) == t
    && (forall batch :: Apply(t, AddFrames(r.job, r.epoch, batch)) == t)
  }

  ghost predicate Outdated(t: Tables, r: Report) { 0 <= r.epoch < JobEpoch(t, r.job) }

  /** A manual reassignment of a chunk of the job last dispatched before the job's latest edit. It puts
      the chunk in flight without stamping it. */
  predicate StaleTarget(t: Tables, s: Step, job: JobId) {
    && s.Reassign? && s.node != ""
    && s.id in t.chunks && Reassignable(t.chunks[s.id])
    && t.chunks[s.id].job == job && t.chunks[s.id].epoch != JobEpoch(t, job)
  }

  ghost predicate NoStaleTargets(t: Tables, steps: seq<Step>, job: JobId)
    decreases |steps|
  {
    steps == [] || (!StaleTarget(t, steps[0], job) && NoStaleTargets(Apply(t, steps[0]), steps[1..], job))
  }

  /** A manual reassignment that makes this very report good again: of the chunk it names, still under
      its stamp, to the node that sends it. */
  predicate Revives(t: Tables, s: Step, r: Report) {
    && s.Reassign? && s.node != "" && (r.node == "" || s.node == r.node)
    && s.id in t.chunks && Reassignable(t.chunks[s.id])
    && t.chunks[s.id].job == r.job && t.chunks[s.id].range == r.range && t.chunks[s.id].epoch == r.epoch
  }

  ghost predicate NeverRevived(t: Tables, steps: seq<Step>, r: Report)
    decreases |steps|
  {
    steps == [] || (!Revives(t, steps[0], r) && NeverRevived(Apply(t, steps[0]), steps[1..], r))
  }

  // ---- The fence is what makes outdated reports inert ----

  /** An outdated report is without effect exactly when no row takes it for current. */
  lemma InertIff(t: Tables, r: Report)
    requires Outdated(t, r)
    ensures Inert(t, r) <==> !AnyCurrent(t, r)
  {
    if AnyCurrent(t, r) {
      var id :| id in t.chunks && Current(t.chunks[id], r);
      assert Apply(t, Complete(r, 0)).chunks[id].state == Completed;
    } else {
      forall at
        ensures Apply(t, Complete(r, at)) == t
      {
        assert forall id :: id in t.chunks ==> CompletedBy(t.chunks[id], r, at) == t.chunks[id];
        assert Apply(t, Complete(r, at)).chunks == t.chunks;
      }
    }
  }

  lemma OutdatedIsInert(t: Tables, r: Report)
    requires FenceUp(t, r.job) && Outdated(t, r)
    ensures Inert(t, r)
  {
    hide Apply;
    InertIff(t, r);
  }

  /** The fence of a job stands exactly when every outdated report on it is inert. */
  lemma FenceUpIff(t: Tables, job: JobId)
    requires Inv(t)
    ensures FenceUp(t, job) <==> forall r: Report :: r.job == job && Outdated(t, r) ==> Inert(t, r)
  {
    hide Apply, RangesDisjoint, Inert;
    if FenceUp(t, job) {
      forall r: Report | r.job == job && Outdated(t, r)
        ensures Inert(t, r)
      {
        OutdatedIsInert(t, r);
      }
    } else {
      var id :| id in t.chunks && t.chunks[id].job == job && t.chunks[id].state == Assigned && t.chunks[id].epoch != JobEpoch(t, job);
      var c := t.chunks[id];
      var r := Report(c.assignee.value, c.job, c.range, c.epoch);
      assert Current(c, r);
      InertIff(t, r);
    }
  }

  // ---- What a step does to what is in flight ----

  /** How a chunk came to be in flight: it was before, under the same stamp; or this step dispatched it
      under its job's epoch; or this step handed it out under whatever stamp it had. Its job's epoch is
      what it was. */
  ghost predicate CameFrom(t: Tables, s: Step, id: ChunkId) {
    var t' := Apply(t, s);
    && id in t'.chunks && id in t.chunks
    && var c, c' := t.chunks[id], t'.chunks[id];
    && c'.job == c.job && c'.range == c.range && JobEpoch(t', c.job) == JobEpoch(t, c.job)
    && (|| (c.state == Assigned && c'.assignee == c.assignee && c'.epoch == c.epoch)
        || (s.Assign? && c'.epoch == JobEpoch(t, c.job))
        || (s.Reassign? && s.id == id && s.node != "" && Reassignable(c) && c'.assignee == Some(s.node) && c'.epoch == c.epoch))
  }

  lemma InFlightCameFrom(t: Tables, s: Step, id: ChunkId)
    requires Inv(t) && id in Apply(t, s).chunks && Apply(t, s).chunks[id].state == Assigned
    ensures CameFrom(t, s, id)
  {
    match s {
      case Submit(_, _, _, _) => SubmittedNotInFlight(t, s, id);
      case Resubmit(_, _, _) => ResubmittedNotInFlight(t, s, id);
      case Edit(_, _, _, _) => EditedInFlight(t, s, id);
      case Fail(_) => FailedInFlight(t, s, id);
      case _ => PlainInFlight(t, s, id);
    }
  }

  lemma SubmittedNotInFlight(t: Tables, s: Step, id: ChunkId)
    requires Inv(t) && s.Submit? && id in Apply(t, s).chunks && Apply(t, s).chunks[id].state == Assigned
    ensures CameFrom(t, s, id)
  {
    hide RowOk, RangesDisjoint, Chunks;
  }

  lemma ResubmittedNotInFlight(t: Tables, s: Step, id: ChunkId)
    requires Inv(t) && s.Resubmit? && id in Apply(t, s).chunks && Apply(t, s).chunks[id].state == Assigned
    ensures CameFrom(t, s, id)
  {
    hide CopiedChunks, RangesDisjoint;
    if CanResubmit(t, s.source) && s.job !in t.jobs {
      var rows := CopiedChunks(t, s.source, s.job, s.at);
      CopiedRows(t, s.source, s.job, s.at);
      SubmittedRows(t, s.job, t.jobs[s.source].manifest, t.jobs[s.source].priority, s.at, rows);
    }
  }

  lemma EditedInFlight(t: Tables, s: Step, id: ChunkId)
    requires Inv(t) && s.Edit? && id in Apply(t, s).chunks && Apply(t, s).chunks[id].state == Assigned
    ensures CameFrom(t, s, id)
  {
    hide RowOk, RangesDisjoint, Chunks;
  }

  lemma FailedInFlight(t: Tables, s: Step, id: ChunkId)
    requires s.Fail? && id in Apply(t, s).chunks && Apply(t, s).chunks[id].state == Assigned
    ensures CameFrom(t, s, id)
  {
    if AnyCurrent(t, s.report) { assert Apply(t, s).chunks[id] == FailedBy(t, id, s.report); }
  }

  lemma PlainInFlight(t: Tables, s: Step, id: ChunkId)
    requires !(s.Submit? || s.Resubmit? || s.Edit? || s.Fail?)
    requires id in Apply(t, s).chunks && Apply(t, s).chunks[id].state == Assigned
    ensures CameFrom(t, s, id)
  {
    hide FramesWith, HasChunk, AllRequired;
  }

  // ---- The fence of a job ----

  /** One step keeps the fence of a job up exactly when it is not a stale manual reassignment of one of
      its chunks. */
  lemma FenceStep(t: Tables, s: Step, job: JobId)
    requires Inv(t) && FenceUp(t, job)
    ensures FenceUp(Apply(t, s), job) <==> !StaleTarget(t, s, job)
  {
    if StaleTarget(t, s, job) {
      StaleTargetLands(t, s);
      assert !FenceUp(Apply(t, s), job);
    } else {
      KeepsFence(t, s, job);
    }
  }

  lemma KeepsFence(t: Tables, s: Step, job: JobId)
    requires Inv(t) && FenceUp(t, job) && !StaleTarget(t, s, job)
    ensures FenceUp(Apply(t, s), job)
  {
    hide Inv, Apply;
    var t' := Apply(t, s);
    forall id | id in t'.chunks && t'.chunks[id].job == job && t'.chunks[id].state == Assigned
      ensures t'.chunks[id].epoch == JobEpoch(t', job)
    {
      InFlightCameFrom(t, s, id);
    }
  }

  lemma StaleTargetLands(t: Tables, s: Step)
    requires s.Reassign? && s.node != "" && s.id in t.chunks && Reassignable(t.chunks[s.id])
    ensures var t' := Apply(t, s);
            && t'.jobs == t.jobs && s.id in t'.chunks
            && t'.chunks[s.id] == t.chunks[s.id].(state := Assigned, assignee := Some(s.node), assignedAt := Some(s.at))
  {
  }

  lemma {:induction false} RunKeepsFence(t: Tables, steps: seq<Step>, job: JobId)
    requires Inv(t) && FenceUp(t, job) && NoStaleTargets(t, steps, job)
    ensures Inv(Run(t, steps)) && FenceUp(Run(t, steps), job)
    decreases |steps|
  {
    hide Inv, FenceUp, Apply;
    if steps != [] {
      StepKeepsInv(t, steps[0]);
      FenceStep(t, steps[0], job);
      RunKeepsFence(Apply(t, steps[0]), steps[1..], job);
    }
  }

  // ---- Epochs only grow ----

  lemma EpochGrows(t: Tables, s: Step, job: JobId)
    requires job in t.jobs && s != Delete(job)
    ensures job in Apply(t, s).jobs && JobEpoch(Apply(t, s), job) >= JobEpoch(t, job)
  {
  }

  lemma OnlyEditsBump(t: Tables, s: Step, job: JobId)
    requires job in t.jobs && s != Delete(job) && !s.Edit?
    ensures JobEpoch(Apply(t, s), job) == JobEpoch(t, job)
  {
  }

  lemma {:induction false} EpochGrowsOverRun(t: Tables, steps: seq<Step>, job: JobId)
    requires job in t.jobs && Delete(job) !in steps
    ensures job in Run(t, steps).jobs && JobEpoch(Run(t, steps), job) >= JobEpoch(t, job)
    decreases |steps|
  {
    if steps != [] {
      EpochGrows(t, steps[0], job);
      EpochGrowsOverRun(Apply(t, steps[0]), steps[1..], job);
    }
  }

  // ---- Outdated for good ----

  /** While its job exists, one step leaves an outdated, inert report outdated; and inert exactly when it
      does not revive that report by hand. */
  lemma InertStep(t: Tables, s: Step, r: Report)
    requires Inv(t) && r.job in t.jobs && Outdated(t, r) && Inert(t, r) && s != Delete(r.job)
    ensures r.job in Apply(t, s).jobs && Outdated(Apply(t, s), r)
    ensures Inert(Apply(t, s), r) <==> !Revives(t, s, r)
  {
    hide Inv, Apply, Inert;
    var t' := Apply(t, s);
    EpochGrows(t, s, r.job);
    InertIff(t, r);
    InertIff(t', r);
    if Revives(t, s, r) {
      StaleTargetLands(t, s);
      assert Current(t'.chunks[s.id], r);
    } else if AnyCurrent(t', r) {
      var id :| id in t'.chunks && Current(t'.chunks[id], r);
      InFlightCameFrom(t, s, id);
    }
  }

  lemma {:induction false} RunKeepsInert(t: Tables, steps: seq<Step>, r: Report)
    requires Inv(t) && r.job in t.jobs && Outdated(t, r) && Inert(t, r)
    requires Delete(r.job) !in steps && NeverRevived(t, steps, r)
    ensures Outdated(Run(t, steps), r) && Inert(Run(t, steps), r)
    decreases |steps|
  {
    hide Inv, Apply, Inert, Outdated, Revives;
    if steps != [] {
      StepKeepsInv(t, steps[0]);
      InertStep(t, steps[0], r);
      RunKeepsInert(Apply(t, steps[0]), steps[1..], r);
    }
  }

  /** Restarting, or starting over, puts the job's fence up whatever state it was in. */
  lemma EditRaisesFence(t: Tables, job: JobId, manifest: Manifest, mode: EditMode, priority: int)
    requires Inv(t) && job in t.jobs && manifest.plan.Some? && mode != Continue
    ensures var t' := Apply(t, Edit(job, manifest, mode, priority));
            job in t'.jobs && t'.jobs[job].epoch == t.jobs[job].epoch + 1 && FenceUp(t', job)
  {
    hide RowOk, RangesDisjoint, Chunks;
    var s := Edit(job, manifest, mode, priority);
    var t' := Apply(t, s);
    forall id | id in t'.chunks && t'.chunks[id].job == job
      ensures t'.chunks[id].state != Assigned
    {
      if mode == StartOver {
        assert t'.chunks[id] == NewRow(PlannedChunks(job, manifest.plan.value), t.nextChunk, id);
      }
    }
  }

  /** The fence over whole runs. Take any well-formed state - so any reachable one, however it was
      reached - and edit a job in a mode that restarts it. Then, whatever happens to any job, a report
      stamped before the edit stays without effect: until its job is deleted, or its own chunk is handed
      back to its own node by hand under the old stamp. */
  lemma FenceHolds(t: Tables, job: JobId, manifest: Manifest, mode: EditMode, priority: int, after: seq<Step>, r: Report)
    requires Inv(t) && job in t.jobs && manifest.plan.Some? && mode != Continue
    requires r.job == job && 0 <= r.epoch <= t.jobs[job].epoch
    requires Delete(job) !in after && NeverRevived(Apply(t, Edit(job, manifest, mode, priority)), after, r)
    ensures Inert(Run(Apply(t, Edit(job, manifest, mode, priority)), after), r)
  {
    hide Inv, Apply, Inert, FenceUp;
    var edit := Edit(job, manifest, mode, priority);
    StepKeepsInv(t, edit);
    EditRaisesFence(t, job, manifest, mode, priority);
    OutdatedIsInert(Apply(t, edit), r);
    RunKeepsInert(Apply(t, edit), after, r);
  }

  /** A reassignment that revives an outdated report is a stale one of its job. */
  lemma RevivalIsStale(t: Tables, s: Step, r: Report)
    requires Outdated(t, r) && Revives(t, s, r)
    ensures StaleTarget(t, s, r.job)
  {
  }

  /** The fence does not shut out the new version: what the current assignee of a chunk reports
      under the stamp of its dispatch takes effect. */
  lemma CurrentReportLands(t: Tables, id: ChunkId, at: int)
    requires Inv(t) && id in t.chunks && t.chunks[id].state == Assigned
    ensures var c := t.chunks[id]; var r := Report(c.assignee.value, c.job, c.range, c.epoch);
            && Apply(t, Complete(r, at)) == WithRow(t, id, c.(state := Completed, completedAt := Some(at)))
            && AnyCurrent(t, r)
  {
    var c := t.chunks[id];
    var r := Report(c.assignee.value, c.job, c.range, c.epoch);
    var done := c.(state := Completed, completedAt := Some(at));
    assert Current(c, r);
    forall other | other in t.chunks
      ensures CompletedBy(t.chunks[other], r, at) == if other == id then done else t.chunks[other]
    {
      if other != id && t.chunks[other].job == c.job { assert !t.chunks[other].range.Overlaps(c.range); }
    }
    var t' := Apply(t, Complete(r, at));
    assert forall other :: other in t'.chunks ==> t'.chunks[other] == t.chunks[id := done][other];
    assert t'.chunks == t.chunks[id := done];
  }

  // ---- The hole ----

  /** The exception is real: from a stale manual reassignment on, the outdated report of the node it
      names takes effect. */
  lemma StaleTargetLeaks(t: Tables, s: Step, at: int)
    requires Inv(t) && s.Reassign? && s.id in t.chunks && StaleTarget(t, s, t.chunks[s.id].job)
    ensures var c := t.chunks[s.id]; var r := Report(s.node, c.job, c.range, c.epoch);
            Outdated(Apply(t, s), r) && Apply(Apply(t, s), Complete(r, at)).chunks[s.id].state == Completed
  {
    var c := t.chunks[s.id];
    var r := Report(s.node, c.job, c.range, c.epoch);
    assert Current(Apply(t, s).chunks[s.id], r);
  }

  const LEAK_RANGE := Range(1, 1)
  const LEAK_MANIFEST := Manifest(Some([]), Some(Plan(1, 1, 1, 1)))
  const LEAK_JOB := Job(LEAK_MANIFEST, Active, 50, 0, 0, 0, 0)
  const LEAK_REPORT := Report("node", "job", LEAK_RANGE, 0)

  /** And it happens: a chunk fails for good, its job is restarted, and the chunk is handed by hand
      to the node that failed it. */
  const LEAKING_RUN := [
    Submit("job", LEAK_MANIFEST, 50, 0),
    Assign(0, "node", [], 1),
    Fail(LEAK_REPORT),
    Edit("job", LEAK_MANIFEST, Restart, 50),
    Reassign(0, "node", 2)]

  function LeakState(job: Job, c: Chunk): Tables { Tables(map["job" := job], map[0 := c], 1, 1) }

  lemma LeakBegins()
    ensures Apply(EMPTY, LEAKING_RUN[0]) == LeakState(LEAK_JOB, FreshChunk("job", LEAK_RANGE))
  {
  }

  lemma LeakAssigns() returns (c: Chunk)
    ensures Apply(LeakState(LEAK_JOB, FreshChunk("job", LEAK_RANGE)), LEAKING_RUN[1]) == LeakState(LEAK_JOB, c)
    ensures Current(c, LEAK_REPORT) && c.retries == 0 && c.epoch == 0
  {
    var t := LeakState(LEAK_JOB, FreshChunk("job", LEAK_RANGE));
    assert Eligible(t, 0, "node", []);
    c := Apply(t, LEAKING_RUN[1]).chunks[0];
    assert Apply(t, LEAKING_RUN[1]).chunks == map[0 := c];
  }

  lemma LeakFails(c: Chunk) returns (d: Chunk)
    requires Current(c, LEAK_REPORT) && c.retries == 0
    ensures Apply(LeakState(LEAK_JOB, c), LEAKING_RUN[2]) == LeakState(LEAK_JOB, d)
    ensures d.job == "job" && d.range == LEAK_RANGE && d.state == Failed && d.epoch == c.epoch && d.retries == 1
  {
    var t := LeakState(LEAK_JOB, c);
    assert AnyCurrent(t, LEAK_REPORT);
    d := FailedBy(t, 0, LEAK_REPORT);
    assert MaxRetries(t, "job") == 1;
    assert Apply(t, LEAKING_RUN[2]).chunks == map[0 := d];
  }

  /** After the first three steps the job's one chunk has failed for good. */
  lemma FailedForGood() returns (d: Chunk)
    ensures Run(EMPTY, LEAKING_RUN[..3]) == LeakState(LEAK_JOB, d)
    ensures d.job == "job" && d.range == LEAK_RANGE && d.state == Failed && d.epoch == 0 && d.retries == 1
  {
    var s := LEAKING_RUN;
    LeakBegins();
    var c := LeakAssigns();
    d := LeakFails(c);
    assert s[..3] == [s[0]] + ([s[1]] + [s[2]]);
    RunCons(EMPTY, s[0], [s[1]] + [s[2]]);
    RunCons(LeakState(LEAK_JOB, FreshChunk("job", LEAK_RANGE)), s[1], [s[2]]);
    assert [s[2]] + [] == [s[2]];
    RunCons(LeakState(LEAK_JOB, c), s[2], []);
  }

  lemma LeakEdits(d: Chunk)
    requires d.state == Failed
    ensures Apply(LeakState(LEAK_JOB, d), LEAKING_RUN[3]) == LeakState(LEAK_JOB.(epoch := 1), d)
  {
    assert Apply(LeakState(LEAK_JOB, d), LEAKING_RUN[3]).chunks == map[0 := d];
  }

  lemma FenceLeaks()
    ensures var t := Run(EMPTY, LEAKING_RUN);
            Inv(t) && Outdated(t, LEAK_REPORT) && !Inert(t, LEAK_REPORT)
  {
    var s := LEAKING_RUN;
    var last := [s[4]];
    LeakBegins();
    var c := LeakAssigns();
    var d := LeakFails(c);
    LeakEdits(d);
    var t := LeakState(LEAK_JOB.(epoch := 1), d);
    assert s == [s[0]] + ([s[1]] + ([s[2]] + ([s[3]] + last)));
    RunCons(EMPTY, s[0], [s[1]] + ([s[2]] + ([s[3]] + last)));
    RunCons(LeakState(LEAK_JOB, FreshChunk("job", LEAK_RANGE)), s[1], [s[2]] + ([s[3]] + last));
    RunCons(LeakState(LEAK_JOB, c), s[2], [s[3]] + last);
    RunCons(LeakState(LEAK_JOB, d), s[3], last);
    assert last == [s[4]] + [];
    RunCons(t, s[4], []);
    EmptyIsInv();
    RunKeepsInv(EMPTY, s);
    StaleLeak(t, d);
  }

  lemma StaleLeak(t: Tables, d: Chunk)
    requires t == LeakState(LEAK_JOB.(epoch := 1), d)
    requires d.job == "job" && d.range == LEAK_RANGE && d.state == Failed && d.epoch == 0
    ensures Outdated(Apply(t, LEAKING_RUN[4]), LEAK_REPORT) && !Inert(Apply(t, LEAKING_RUN[4]), LEAK_REPORT)
  {
  }
}
