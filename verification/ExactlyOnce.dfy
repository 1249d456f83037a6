/** Reports arrive at least once - late, repeated, out of order - and take effect at most once. */
module ExactlyOnce {
  import opened Wrappers
  import opened ChunkPlan
  import opened FarmTables
  import opened TableInvariants
  import opened EditFence

  datatype Kind = Completion | Failure

  function Delivery(kind: Kind, r: Report, at: int): Step {
    match kind
    case Completion => Complete(r, at)
    case Failure => Fail(r)
  }

  predicate Matches(c: Chunk, r: Report) { c.job == r.job && c.range == r.range }

  /** The row is past the report: completed, or closed to the node that failed it. */
  predicate RowSettled(c: Chunk, r: Report, kind: Kind) {
    match kind
    case Completion => c.state == Completed
    case Failure => r.node in c.failedOn && !(c.state == Assigned && c.assignee == Some(r.node))
  }

  ghost predicate RowsSettled(t: Tables, r: Report, kind: Kind) {
    forall id :: id in t.chunks && Matches(t.chunks[id], r) ==> RowSettled(t.chunks[id], r, kind)
  }

  /** The database is past the report: it is outdated and no row takes it for current, or every row it
      could address is past it. */
  ghost predicate Settled(t: Tables, r: Report, kind: Kind) {
    && r.job in t.jobs && r.epoch <= t.jobs[r.job].epoch
    && (kind == Failure ==> r.node != "")
    && if Outdated(t, r) then !AnyCurrent(t, r) else RowsSettled(t, r, kind)
  }

  /** The steps after which a report that has already landed could land again:
      - deleting its job;
      - once it is outdated, handing its chunk by hand back to its node under the old stamp;
      - before that, requeueing the whole job;
      - for an unstamped report, starting the job over with the same chunk in the plan;
      - for a completion, a revert that finds its chunk no longer in flight;
      - for a failure, handing the chunk by hand to the node that failed it. */
  predicate Unsettles(t: Tables, s: Step, r: Report, kind: Kind) {
    || s == Delete(r.job)
    || (0 <= r.epoch < JobEpoch(t, r.job) && Revives(t, s, r))
    || (&& !(0 <= r.epoch < JobEpoch(t, r.job))
        && (|| (s == RequeueAll(r.job) && exists id | id in t.chunks :: Matches(t.chunks[id], r))
            || (s.Edit? && s.job == r.job && s.job in t.jobs && s.mode == StartOver && r.epoch < 0
                && s.manifest.plan.Some? && r.range in Chunks(s.manifest.plan.value.first, s.manifest.plan.value.last, s.manifest.plan.value.size))
            || (kind == Completion && s == Revert(r.job, r.range)
                && exists id | id in t.chunks :: Matches(t.chunks[id], r) && t.chunks[id].state != Assigned)
            || (kind == Failure && s.Reassign? && s.node == r.node && s.id in t.chunks
                && Matches(t.chunks[s.id], r) && Reassignable(t.chunks[s.id]))))
  }

  ghost predicate NeverUnsettled(t: Tables, steps: seq<Step>, r: Report, kind: Kind)
    decreases |steps|
  {
    steps == [] || (!Unsettles(t, steps[0], r, kind) && NeverUnsettled(Apply(t, steps[0]), steps[1..], r, kind))
  }

  // ---- Landing ----

  lemma OnlyRow(t: Tables, id: ChunkId, r: Report)
    requires Inv(t) && id in t.chunks && Matches(t.chunks[id], r)
    ensures forall other :: other in t.chunks && Matches(t.chunks[other], r) ==> other == id
  {
  }

  /** A report that lands settles itself. */
  lemma LandingSettles(t: Tables, r: Report, kind: Kind, at: int)
    requires Inv(t) && AnyCurrent(t, r) && (kind == Failure ==> r.node != "")
    ensures Settled(Apply(t, Delivery(kind, r, at)), r, kind)
  {
    hide RangesDisjoint;
    var t' := Apply(t, Delivery(kind, r, at));
    var id :| id in t.chunks && Current(t.chunks[id], r);
    OnlyRow(t, id, r);
    assert t'.jobs == t.jobs;
    forall other | other in t'.chunks && Matches(t'.chunks[other], r)
      ensures RowSettled(t'.chunks[other], r, kind) && !Current(t'.chunks[other], r)
    {
      LandedRow(t, id, r, kind, at, other);
    }
  }

  lemma LandedRow(t: Tables, id: ChunkId, r: Report, kind: Kind, at: int, other: ChunkId)
    requires id in t.chunks && Current(t.chunks[id], r) && (kind == Failure ==> r.node != "")
    requires forall x :: x in t.chunks && Matches(t.chunks[x], r) ==> x == id
    requires other in Apply(t, Delivery(kind, r, at)).chunks && Matches(Apply(t, Delivery(kind, r, at)).chunks[other], r)
    ensures var c := Apply(t, Delivery(kind, r, at)).chunks[other]; RowSettled(c, r, kind) && !Current(c, r)
  {
    var t' := Apply(t, Delivery(kind, r, at));
    assert other in t.chunks && t'.chunks[other].job == t.chunks[other].job && t'.chunks[other].range == t.chunks[other].range;
    assert other == id;
    if kind == Failure {
      assert IsLowest(t, id, r.job, r.range);
      assert t'.chunks[id] == FailedOnce(Blacklisting(t.chunks[id], r.node), MaxRetries(t, r.job));
    }
  }

  /** A settled report changes nothing when it is delivered again. */
  lemma SettledIsInert(t: Tables, r: Report, kind: Kind, at: int)
    requires Settled(t, r, kind)
    ensures Apply(t, Delivery(kind, r, at)) == t && !AnyCurrent(t, r)
  {
    forall id | id in t.chunks
      ensures !Current(t.chunks[id], r)
    {
    }
    if kind == Completion {
      assert forall id :: id in t.chunks ==> CompletedBy(t.chunks[id], r, at) == t.chunks[id];
      assert Apply(t, Complete(r, at)).chunks == t.chunks;
    }
  }

  // ---- Staying settled ----

  /** One step keeps a settled report settled exactly when it is none of those listed. */
  lemma SettledStep(t: Tables, s: Step, r: Report, kind: Kind)
    requires Inv(t) && Settled(t, r, kind)
    ensures Settled(Apply(t, s), r, kind) <==> !Unsettles(t, s, r, kind)
  {
    hide Inv, Matches, Inserted, Eligible, HasChunk, AnyCurrent, Inert, RowSettled, Revives;
    if s == Delete(r.job) {
    } else {
      EpochGrows(t, s, r.job);
      if Outdated(t, r) {
        InertIff(t, r);
        InertStep(t, s, r);
        InertIff(Apply(t, s), r);
      } else {
        RowsStep(t, s, r, kind);
        if RowsSettled(Apply(t, s), r, kind) { SettledRowsAreNotCurrent(Apply(t, s), r, kind); }
      }
    }
  }

  lemma SettledRowsAreNotCurrent(t: Tables, r: Report, kind: Kind)
    requires RowsSettled(t, r, kind) && (kind == Failure ==> r.node != "")
    ensures !AnyCurrent(t, r)
  {
    forall id | id in t.chunks
      ensures !Current(t.chunks[id], r)
    {
    }
  }

  lemma RowsStep(t: Tables, s: Step, r: Report, kind: Kind)
    requires Inv(t) && Settled(t, r, kind) && !Outdated(t, r) && s != Delete(r.job)
    ensures if Outdated(Apply(t, s), r) then !AnyCurrent(Apply(t, s), r) && !Unsettles(t, s, r, kind)
            else RowsSettled(Apply(t, s), r, kind) <==> !Unsettles(t, s, r, kind)
  {
    hide Inv, Apply, RowsSettled, AnyCurrent, Revives, HasChunk;
    if !s.Edit? { OnlyEditsBump(t, s, r.job); }
    match s {
      case Submit(_, _, _, _) => SubmitSettled(t, s, r, kind);
      case Resubmit(_, _, _) => ResubmitSettled(t, s, r, kind);
      case Edit(_, _, _, _) => EditSettled(t, s, r, kind);
      case Fail(_) => FailSettled(t, s, r, kind);
      case Assign(_, _, _, _) => RowStepSettled(t, s, r, kind);
      case Stop(_) => RowStepSettled(t, s, r, kind);
      case Reassign(_, _, _) => ReassignSettled(t, s, r, kind);
      case RequeueAll(_) => RequeueSettled(t, s, r, kind);
      case Revert(_, _) => RevertSettled(t, s, r, kind);
      case Complete(_, _) => BulkStepSettled(t, s, r, kind);
      case Reclaim(_) => BulkStepSettled(t, s, r, kind);
      case RetryFailed(_) => BulkStepSettled(t, s, r, kind);
      case _ => JobStepSettled(t, s, r, kind);
    }
  }

  lemma SubmitSettled(t: Tables, s: Step, r: Report, kind: Kind)
    requires Inv(t) && Settled(t, r, kind) && RowsSettled(t, r, kind) && s.Submit?
    ensures RowsSettled(Apply(t, s), r, kind)
  {
    var t' := Apply(t, s);
    forall id | id in t'.chunks && id !in t.chunks
      ensures t'.chunks[id].job != r.job
    {
    }
  }

  lemma ResubmitSettled(t: Tables, s: Step, r: Report, kind: Kind)
    requires Inv(t) && Settled(t, r, kind) && RowsSettled(t, r, kind) && s.Resubmit?
    ensures RowsSettled(Apply(t, s), r, kind)
  {
    hide CopiedChunks, RowOk, RangesDisjoint;
    if CanResubmit(t, s.source) && s.job !in t.jobs {
      var rows := CopiedChunks(t, s.source, s.job, s.at);
      CopiedRows(t, s.source, s.job, s.at);
      SubmittedRows(t, s.job, t.jobs[s.source].manifest, t.jobs[s.source].priority, s.at, rows);
    }
  }

  lemma EditSettled(t: Tables, s: Step, r: Report, kind: Kind)
    requires Inv(t) && Settled(t, r, kind) && RowsSettled(t, r, kind) && !Outdated(t, r) && s.Edit?
    ensures if Outdated(Apply(t, s), r) then !AnyCurrent(Apply(t, s), r) && !Unsettles(t, s, r, kind)
            else RowsSettled(Apply(t, s), r, kind) <==> !Unsettles(t, s, r, kind)
  {
    if s.manifest.plan.Some? && s.job == r.job && s.mode == StartOver {
      StartOverSettled(t, s, r, kind);
    } else {
      PlainEditSettled(t, s, r, kind);
      SettledRowsAreNotCurrent(Apply(t, s), r, kind);
    }
  }

  lemma PlainEditSettled(t: Tables, s: Step, r: Report, kind: Kind)
    requires Settled(t, r, kind) && RowsSettled(t, r, kind) && s.Edit?
    requires s.mode != StartOver || s.job != r.job || s.manifest.plan.None?
    ensures RowsSettled(Apply(t, s), r, kind)
  {
    var t' := Apply(t, s);
    forall id | id in t'.chunks && Matches(t'.chunks[id], r)
      ensures RowSettled(t'.chunks[id], r, kind)
    {
      assert id in t.chunks && Matches(t.chunks[id], r);
    }
  }

  lemma StartOverSettled(t: Tables, s: Step, r: Report, kind: Kind)
    requires Inv(t) && Settled(t, r, kind) && !Outdated(t, r)
    requires s.Edit? && s.manifest.plan.Some? && s.job == r.job && s.mode == StartOver
    ensures if Outdated(Apply(t, s), r) then !AnyCurrent(Apply(t, s), r) && !Unsettles(t, s, r, kind)
            else RowsSettled(Apply(t, s), r, kind) <==> !Unsettles(t, s, r, kind)
  {
    hide RangesDisjoint, RowOk, Chunks, HasChunk, Revives;
    var t' := Apply(t, s);
    var p := s.manifest.plan.value;
    var ranges := Chunks(p.first, p.last, p.size);
    assert t'.jobs[r.job].epoch == t.jobs[r.job].epoch + 1;
    forall id | id in t'.chunks && t'.chunks[id].job == r.job
      ensures t.nextChunk <= id < t'.nextChunk && t'.chunks[id] == FreshChunk(r.job, ranges[id - t.nextChunk])
    {
    }
    if r.epoch >= 0 {
      assert Outdated(t', r) && !AnyCurrent(t', r);
    } else {
      if r.range in ranges {
        var i :| 0 <= i < |ranges| && ranges[i] == r.range;
        var id := t.nextChunk + i;
        assert t'.chunks[id] == NewRow(PlannedChunks(r.job, p), t.nextChunk, id) == FreshChunk(r.job, r.range);
        assert Matches(t'.chunks[id], r) && !RowSettled(t'.chunks[id], r, kind);
      }
    }
  }

  lemma FailSettled(t: Tables, s: Step, r: Report, kind: Kind)
    requires Inv(t) && RowsSettled(t, r, kind) && s.Fail?
    ensures RowsSettled(Apply(t, s), r, kind)
  {
    var t' := Apply(t, s);
    forall id | id in t'.chunks && Matches(t'.chunks[id], r)
      ensures RowSettled(t'.chunks[id], r, kind)
    {
      if AnyCurrent(t, s.report) {
        var c := t.chunks[id];
        assert Matches(c, r) && t'.chunks[id] == FailedBy(t, id, s.report);
      }
    }
  }

  lemma RowStepSettled(t: Tables, s: Step, r: Report, kind: Kind)
    requires Settled(t, r, kind) && RowsSettled(t, r, kind) && (s.Assign? || s.Stop?)
    ensures RowsSettled(Apply(t, s), r, kind)
  {
  }

  lemma ReassignSettled(t: Tables, s: Step, r: Report, kind: Kind)
    requires Settled(t, r, kind) && RowsSettled(t, r, kind) && !Outdated(t, r) && s.Reassign?
    ensures RowsSettled(Apply(t, s), r, kind) <==> !Unsettles(t, s, r, kind)
  {
    var t' := Apply(t, s);
    if Unsettles(t, s, r, kind) {
      assert Matches(t'.chunks[s.id], r) && !RowSettled(t'.chunks[s.id], r, kind);
    }
  }

  lemma RequeueSettled(t: Tables, s: Step, r: Report, kind: Kind)
    requires Settled(t, r, kind) && RowsSettled(t, r, kind) && !Outdated(t, r) && s.RequeueAll?
    ensures RowsSettled(Apply(t, s), r, kind) <==> !Unsettles(t, s, r, kind)
  {
    var t' := Apply(t, s);
    if s.job == r.job {
      forall id | id in t.chunks && Matches(t.chunks[id], r)
        ensures Matches(t'.chunks[id], r) && !RowSettled(t'.chunks[id], r, kind)
      {
      }
    }
  }

  lemma RevertSettled(t: Tables, s: Step, r: Report, kind: Kind)
    requires Settled(t, r, kind) && RowsSettled(t, r, kind) && !Outdated(t, r) && s.Revert?
    ensures RowsSettled(Apply(t, s), r, kind) <==> !Unsettles(t, s, r, kind)
  {
    var t' := Apply(t, s);
    if Unsettles(t, s, r, kind) {
      var id :| id in t.chunks && Matches(t.chunks[id], r) && t.chunks[id].state != Assigned;
      assert Matches(t'.chunks[id], r) && !RowSettled(t'.chunks[id], r, kind);
    }
  }

  lemma BulkStepSettled(t: Tables, s: Step, r: Report, kind: Kind)
    requires RowsSettled(t, r, kind) && (s.Complete? || s.Reclaim? || s.RetryFailed?)
    ensures RowsSettled(Apply(t, s), r, kind)
  {
  }

  lemma JobStepSettled(t: Tables, s: Step, r: Report, kind: Kind)
    requires RowsSettled(t, r, kind)
    requires s.CheckCompletion? || s.AddFrames? || s.Steer? || s.Reorder? || s.Delete?
    ensures RowsSettled(Apply(t, s), r, kind)
  {
  }

  lemma {:induction false} RunStaysSettled(t: Tables, steps: seq<Step>, r: Report, kind: Kind)
    requires Inv(t) && Settled(t, r, kind) && NeverUnsettled(t, steps, r, kind)
    ensures Settled(Run(t, steps), r, kind)
    decreases |steps|
  {
    if steps != [] {
      SettledStep(t, steps[0], r, kind);
      StepKeepsInv(t, steps[0]);
      RunStaysSettled(Apply(t, steps[0]), steps[1..], r, kind);
    }
  }

  /** Exactly-once effect: once a report has landed, however the run goes on without one of the
      unsettling steps, delivering it again leaves the whole database as it is. */
  lemma RedeliveryIsHarmless(t: Tables, r: Report, kind: Kind, at: int, steps: seq<Step>, again: int)
    requires Inv(t) && AnyCurrent(t, r) && (kind == Failure ==> r.node != "")
    requires NeverUnsettled(Apply(t, Delivery(kind, r, at)), steps, r, kind)
    ensures var t' := Run(Apply(t, Delivery(kind, r, at)), steps);
            Apply(t', Delivery(kind, r, again)) == t' && !AnyCurrent(t', r)
  {
    LandingSettles(t, r, kind, at);
    StepKeepsInv(t, Delivery(kind, r, at));
    RunStaysSettled(Apply(t, Delivery(kind, r, at)), steps, r, kind);
    SettledIsInert(Run(Apply(t, Delivery(kind, r, at)), steps), r, kind, again);
  }

  predicate IsDelivery(s: Step, r: Report, kind: Kind) {
    match kind
    case Completion => s.Complete? && s.report == r
    case Failure => s.Fail? && s.report == r
  }

  predicate Lands(t: Tables, s: Step, r: Report, kind: Kind) { IsDelivery(s, r, kind) && AnyCurrent(t, r) }

  /** How many deliveries of a report take effect in a run. */
  function Landings(t: Tables, steps: seq<Step>, r: Report, kind: Kind): nat
    decreases |steps|
  {
    if steps == [] then 0 else
      (if Lands(t, steps[0], r, kind) then 1 else 0) + Landings(Apply(t, steps[0]), steps[1..], r, kind)
  }

  /** How many unsettling steps a run has. */
  function Unsettlings(t: Tables, steps: seq<Step>, r: Report, kind: Kind): nat
    decreases |steps|
  {
    if steps == [] then 0 else
      (if Unsettles(t, steps[0], r, kind) then 1 else 0) + Unsettlings(Apply(t, steps[0]), steps[1..], r, kind)
  }

  lemma LandingIsDelivery(t: Tables, s: Step, r: Report, kind: Kind)
    requires Inv(t) && Lands(t, s, r, kind) && (kind == Failure ==> r.node != "")
    ensures Settled(Apply(t, s), r, kind)
  {
    hide Settled, Apply;
    var at := if kind == Completion then s.at else 0;
    assert s == Delivery(kind, r, at);
    LandingSettles(t, r, kind, at);
  }

  /** From any well-formed state, over any run whatever, however often and wherever in it a report is
      delivered: between two deliveries that take effect there is an unsettling step. So at most one
      more delivery takes effect than there are unsettling steps - and no more than those when the
      database is already past the report. */
  lemma {:induction false} LandingsBounded(t: Tables, steps: seq<Step>, r: Report, kind: Kind)
    requires Inv(t) && (kind == Failure ==> r.node != "")
    ensures Landings(t, steps, r, kind) <= 1 + Unsettlings(t, steps, r, kind)
    ensures Settled(t, r, kind) ==> Landings(t, steps, r, kind) <= Unsettlings(t, steps, r, kind)
    decreases |steps|
  {
    hide Inv, Settled, Unsettles, Apply, AnyCurrent;
    if steps != [] {
      var s := steps[0];
      StepKeepsInv(t, s);
      LandingsBounded(Apply(t, s), steps[1..], r, kind);
      if Settled(t, r, kind) {
        SettledIsInert(t, r, kind, 0);
        SettledStep(t, s, r, kind);
      } else if Lands(t, s, r, kind) {
        LandingIsDelivery(t, s, r, kind);
      }
    }
  }

  // ---- Landing exactly once ----

  /** What the fence looks at in a row. */
  function Standing(c: Chunk): (JobId, Range, ChunkState, Option<NodeId>, int) { (c.job, c.range, c.state, c.assignee, c.epoch) }

  /** The step withdraws, ends, hands over or removes a chunk that the report is about. */
  ghost predicate Touches(t: Tables, s: Step, r: Report) {
    exists id :: id in t.chunks && Matches(t.chunks[id], r) &&
                 (id !in Apply(t, s).chunks || Standing(Apply(t, s).chunks[id]) != Standing(t.chunks[id]))
  }

  /** Nothing but deliveries of the report touches its chunk. */
  ghost predicate LeftAlone(t: Tables, steps: seq<Step>, r: Report, kind: Kind)
    decreases |steps|
  {
    steps == [] || ((IsDelivery(steps[0], r, kind) || !Touches(t, steps[0], r)) && LeftAlone(Apply(t, steps[0]), steps[1..], r, kind))
  }

  lemma OnlyCurrent(t: Tables, id: ChunkId, r: Report)
    requires Inv(t) && id in t.chunks && Matches(t.chunks[id], r)
    ensures AnyCurrent(t, r) <==> Current(t.chunks[id], r)
  {
    hide Inv;
    OnlyRow(t, id, r);
  }

  lemma DeliveryEndsIt(t: Tables, s: Step, r: Report, kind: Kind, id: ChunkId)
    requires id in t.chunks && Matches(t.chunks[id], r) && IsDelivery(s, r, kind) && (AnyCurrent(t, r) <==> Current(t.chunks[id], r))
    ensures id in Apply(t, s).chunks && Matches(Apply(t, s).chunks[id], r) && !Current(Apply(t, s).chunks[id], r)
  {
    hide AnyCurrent;
  }

  lemma StepLeavesAlone(t: Tables, s: Step, r: Report, kind: Kind, id: ChunkId)
    requires Inv(t) && id in t.chunks && Matches(t.chunks[id], r) && (IsDelivery(s, r, kind) || !Touches(t, s, r))
    ensures id in Apply(t, s).chunks && Matches(Apply(t, s).chunks[id], r)
    ensures AnyCurrent(Apply(t, s), r) <==> AnyCurrent(t, r) && !IsDelivery(s, r, kind)
  {
    hide Inv, Apply, AnyCurrent, IsDelivery;
    StepKeepsInv(t, s);
    OnlyCurrent(t, id, r);
    if IsDelivery(s, r, kind) { DeliveryEndsIt(t, s, r, kind, id); }
    OnlyCurrent(Apply(t, s), id, r);
  }

  /** A report that is current, and whose chunk is otherwise left alone, lands the first time it is delivered
      and never again. */
  lemma {:induction false} LandsExactlyOnce(t: Tables, steps: seq<Step>, r: Report, kind: Kind, id: ChunkId)
    requires Inv(t) && id in t.chunks && Matches(t.chunks[id], r) && LeftAlone(t, steps, r, kind)
    ensures Landings(t, steps, r, kind) == if AnyCurrent(t, r) && !AnyCurrent(Run(t, steps), r) then 1 else 0
    ensures AnyCurrent(Run(t, steps), r) ==> AnyCurrent(t, r)
    decreases |steps|
  {
    hide Inv, Apply, AnyCurrent, IsDelivery, Touches, Matches;
    if steps != [] {
      StepKeepsInv(t, steps[0]);
      StepLeavesAlone(t, steps[0], r, kind, id);
      LandsExactlyOnce(Apply(t, steps[0]), steps[1..], r, kind, id);
    }
  }

  lemma {:induction false} AloneInParts(t: Tables, a: seq<Step>, b: seq<Step>, r: Report, kind: Kind)
    requires LeftAlone(t, a + b, r, kind)
    ensures LeftAlone(t, a, r, kind) && LeftAlone(Run(t, a), b, r, kind)
    decreases |a|
  {
    hide Apply, IsDelivery, Touches;
    if a == [] {
      assert a + b == b;
    } else {
      assert (a + b)[1..] == a[1..] + b;
      AloneInParts(Apply(t, a[0]), a[1..], b, r, kind);
    }
  }

  /** The late revert is a real exception. A dispatch POST that times out although the worker got it
      queues a revert; if the chunk completes first, the revert reopens it, the dispatcher may hand it
      to the same node again, and a repeated report lands a second time. */
  lemma LateRevertLandsTwice(t: Tables, id: ChunkId, r: Report, tags: seq<Tag>, at: int)
    requires Inv(t) && !Outdated(t, r) && id in t.chunks && Current(t.chunks[id], r) && r.node != ""
    requires var c := t.chunks[id]; var job := t.jobs[c.job];
             && job.status == Active && job.manifest.requiredTags.Some?
             && AllRequired(job.manifest.requiredTags.value, tags) && r.node !in c.failedOn
    ensures Landings(t, [Complete(r, at), Revert(r.job, r.range), Assign(id, r.node, tags, at), Complete(r, at)], r, Completion) == 2
  {
    hide Apply, Landings, Current, Eligible;
    ReopenedBehindItsBack(t, id, r, tags, at);
    var s := [Complete(r, at), Revert(r.job, r.range), Assign(id, r.node, tags, at), Complete(r, at)];
    var t1 := Apply(t, s[0]);
    var t2 := Apply(t1, s[1]);
    var t3 := Apply(t2, s[2]);
    LandingsCons(t, s[0], s[1..], r);
    LandingsCons(t1, s[1], s[2..], r);
    LandingsCons(t2, s[2], s[3..], r);
    LandingsCons(t3, s[3], [], r);
    NoMoreLandings(Apply(t3, s[3]), r);
    assert s == [s[0]] + s[1..] && s[1..] == [s[1]] + s[2..] && s[2..] == [s[2]] + s[3..] && s[3..] == [s[3]] + [];
  }

  lemma NoMoreLandings(t: Tables, r: Report)
    ensures Landings(t, [], r, Completion) == 0
  {
  }

  lemma ReopenedBehindItsBack(t: Tables, id: ChunkId, r: Report, tags: seq<Tag>, at: int)
    requires Inv(t) && !Outdated(t, r) && id in t.chunks && Current(t.chunks[id], r) && r.node != ""
    requires var c := t.chunks[id]; var job := t.jobs[c.job];
             && job.status == Active && job.manifest.requiredTags.Some?
             && AllRequired(job.manifest.requiredTags.value, tags) && r.node !in c.failedOn
    ensures var t3 := Apply(Apply(Apply(t, Complete(r, at)), Revert(r.job, r.range)), Assign(id, r.node, tags, at));
            id in t3.chunks && Current(t3.chunks[id], r)
  {
    hide RangesDisjoint, JobsOk;
    var t1 := Apply(t, Complete(r, at));
    assert t1.chunks[id].state == Completed && t1.chunks[id].failedOn == t.chunks[id].failedOn;
    var t2 := Apply(t1, Revert(r.job, r.range));
    assert Eligible(t2, id, r.node, tags);
  }

  lemma LandingsCons(t: Tables, s: Step, rest: seq<Step>, r: Report)
    ensures Landings(t, [s] + rest, r, Completion) ==
            (if Lands(t, s, r, Completion) then 1 else 0)
            + Landings(Apply(t, s), rest, r, Completion)
  {
    assert ([s] + rest)[1..] == rest;
  }
}
