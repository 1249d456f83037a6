/** Row histories: what a chunk's retry counter, blacklist and assignee say about the run so far. */
module Accounting {
  import opened Wrappers
  import opened ChunkPlan
  import opened FarmTables
  import opened TableInvariants
  import opened EditFence

  // ---- Rows over runs ----

  /** Ids are never reused: a row present after a step and known before it was present before it. */
  lemma SurvivorWasThere(t: Tables, s: Step, id: ChunkId)
    requires Inv(t) && id < t.nextChunk && id in Apply(t, s).chunks
    ensures id in t.chunks
    ensures Apply(t, s).nextChunk >= t.nextChunk
  {
  }

  lemma {:induction false} SurvivorWasThereAllAlong(t: Tables, steps: seq<Step>, id: ChunkId)
    requires Inv(t) && id < t.nextChunk && id in Run(t, steps).chunks
    ensures id in t.chunks
    decreases |steps|
  {
    if steps != [] {
      IdsAreKept(t, steps[0]);
      StepKeepsInv(t, steps[0]);
      SurvivorWasThereAllAlong(Apply(t, steps[0]), steps[1..], id);
      SurvivorWasThere(t, steps[0], id);
    }
  }

  lemma IdsAreKept(t: Tables, s: Step)
    ensures Apply(t, s).nextChunk >= t.nextChunk
  {
  }

  /** What one step does to a row that survives it. */
  lemma RowAfter(t: Tables, s: Step, id: ChunkId)
    requires Inv(t) && id in t.chunks && id in Apply(t, s).chunks
    ensures var c, c' := t.chunks[id], Apply(t, s).chunks[id];
            match s {
              case Assign(i, n, tags, at) =>
                c' == if i == id && Eligible(t, id, n, tags)
                      then c.(state := Assigned, assignee := Some(n), assignedAt := Some(at), epoch := JobEpoch(t, c.job)) else c
              case Complete(r, at) => c' == CompletedBy(c, r, at)
              case Fail(r) => c' == if Current(c, r) then FailedOnce(Blacklisting(c, r.node), MaxRetries(t, r.job)) else c
              case Revert(job, range) => c' == Reverted(c, job, range)
              case Reclaim(n) => c' == Reclaimed(c, n)
              case Stop(i) => c' == if i == id then StoppedRow(c) else c
              case Reassign(i, n, at) =>
                c' == if i != id || !Reassignable(c) then c
                      else if n == "" then Unassigned(c)
                      else c.(state := Assigned, assignee := Some(n), assignedAt := Some(at))
              case RetryFailed(job) => c' == Retried(c, job)
              case RequeueAll(job) => c' == Requeued(c, job)
              case Edit(job, m, mode, p) =>
                c' == if mode == Restart && m.plan.Some? && job in t.jobs then Withdrawn(c, job) else c
              case AddFrames(job, e, b) =>
                c' == if EpochCurrent(t, job, e) then WithFrames(c, job, set f | f in b) else c
              case _ => c' == c
            }
  {
    hide RowOk, RangesDisjoint, JobsOk;
    match s {
      case Submit(_, _, _, _) =>
      case Resubmit(_, _, _) =>
      case Fail(r) => FailedRowIsCurrent(t, r, id);
      case Edit(_, _, _, _) => EditedRow(t, s, id);
      case _ =>
    }
  }

  lemma EditedRow(t: Tables, s: Step, id: ChunkId)
    requires Inv(t) && id in t.chunks && id in Apply(t, s).chunks && s.Edit?
    ensures Apply(t, s).chunks[id] ==
            if s.mode == Restart && s.manifest.plan.Some? && s.job in t.jobs then Withdrawn(t.chunks[id], s.job) else t.chunks[id]
  {
  }

  /** A failure report touches the one row it is current for, or none. */
  lemma FailedRowIsCurrent(t: Tables, r: Report, id: ChunkId)
    requires Inv(t) && id in t.chunks
    ensures Apply(t, Fail(r)).chunks.Keys == t.chunks.Keys
    ensures Apply(t, Fail(r)).chunks[id] ==
            if Current(t.chunks[id], r) then FailedOnce(Blacklisting(t.chunks[id], r.node), MaxRetries(t, r.job)) else t.chunks[id]
  {
    if AnyCurrent(t, r) {
      var at :| at in t.chunks && Current(t.chunks[at], r);
      forall other | other in t.chunks && t.chunks[other].job == r.job && t.chunks[other].range == r.range
        ensures other == at
      {
        RangeNamesRow(t, other, at);
      }
      assert IsLowest(t, at, r.job, r.range);
    }
  }

  // ---- The retry counter ----

  /** The step starts the row's counter over. */
  predicate ResetsCounter(t: Tables, s: Step, id: ChunkId)
    requires id in t.chunks
  {
    || (s.RetryFailed? && s.job == t.chunks[id].job && t.chunks[id].state == Failed)
    || (s.RequeueAll? && s.job == t.chunks[id].job)
  }

  /** Failure reports accepted for the row since its counter was last started over, given the count
      so far. */
  function FailuresSince(t: Tables, steps: seq<Step>, id: ChunkId, soFar: int): int
    decreases |steps|
  {
    if steps == [] || id !in t.chunks then soFar else
      var s := steps[0];
      FailuresSince(Apply(t, s), steps[1..], id, CountAfter(t, s, id, soFar))
  }

  function CountAfter(t: Tables, s: Step, id: ChunkId, soFar: int): int
    requires id in t.chunks
  {
    if ResetsCounter(t, s, id) then 0
    else if s.Fail? && Current(t.chunks[id], s.report) then soFar + 1
    else soFar
  }

  lemma RetriesStep(t: Tables, s: Step, id: ChunkId)
    requires Inv(t) && id in t.chunks && id in Apply(t, s).chunks
    ensures Apply(t, s).chunks[id].retries == CountAfter(t, s, id, t.chunks[id].retries)
  {
    hide Inv, Apply;
    RowAfter(t, s, id);
  }

  lemma {:induction false} RetriesCountFailures(t: Tables, steps: seq<Step>, id: ChunkId)
    requires Inv(t) && id in t.chunks && id in Run(t, steps).chunks
    ensures Run(t, steps).chunks[id].retries == FailuresSince(t, steps, id, t.chunks[id].retries)
    decreases |steps|
  {
    if steps != [] {
      var t' := Apply(t, steps[0]);
      StepKeepsInv(t, steps[0]);
      IdsAreKept(t, steps[0]);
      SurvivorWasThereAllAlong(t', steps[1..], id);
      RetriesStep(t, steps[0], id);
      RetriesCountFailures(t', steps[1..], id);
    }
  }

  /** A chunk is tried again: while it has failed less often than its job allows since its counter was last
      started over, a failure leaves it where the dispatcher can give it, in an active job, to every node with
      the tags that is not on its blacklist. */
  lemma FailedChunkIsTriedAgain(t: Tables, steps: seq<Step>, id: ChunkId, r: Report, node: NodeId, tags: seq<Tag>, at: int)
    requires Inv(t) && id in t.chunks && id in Run(t, steps).chunks && Current(Run(t, steps).chunks[id], r)
    requires FailuresSince(t, steps, id, t.chunks[id].retries) + 1 < MaxRetries(Run(t, steps), r.job)
    requires r.job in Run(t, steps).jobs
    requires var j := Run(t, steps).jobs[r.job];
             j.status == Active && j.manifest.requiredTags.Some? && forall tag :: tag in j.manifest.requiredTags.value ==> tag in tags
    requires node != r.node && node !in Run(t, steps).chunks[id].failedOn
    ensures var t' := Apply(Run(t, steps), Fail(r)); var t'' := Apply(t', Assign(id, node, tags, at));
            && id in t'.chunks && t'.chunks[id].state == Pending
            && id in t''.chunks && t''.chunks[id].state == Assigned && t''.chunks[id].assignee == Some(node)
  {
    RunKeepsInv(t, steps);
    RetriesCountFailures(t, steps, id);
    FailureMayBeRetried(Run(t, steps), id, r, node, tags, at);
  }

  lemma FailureMayBeRetried(t: Tables, id: ChunkId, r: Report, node: NodeId, tags: seq<Tag>, at: int)
    requires Inv(t) && id in t.chunks && Current(t.chunks[id], r) && t.chunks[id].retries + 1 < MaxRetries(t, r.job)
    requires r.job in t.jobs && t.jobs[r.job].status == Active && t.jobs[r.job].manifest.requiredTags.Some?
    requires forall tag :: tag in t.jobs[r.job].manifest.requiredTags.value ==> tag in tags
    requires node != r.node && node !in t.chunks[id].failedOn
    ensures var t' := Apply(t, Fail(r)); var t'' := Apply(t', Assign(id, node, tags, at));
            && id in t'.chunks && t'.chunks[id].state == Pending
            && id in t''.chunks && t''.chunks[id].state == Assigned && t''.chunks[id].assignee == Some(node)
  {
    hide Inv;
    FailedRowIsCurrent(t, r, id);
    assert Eligible(Apply(t, Fail(r)), id, node, tags);
  }

  function Budget(t: Tables, job: JobId): int {
    if MaxRetries(t, job) < 1 then 1 else MaxRetries(t, job)
  }

  predicate WithinBudget(c: Chunk, budget: int) {
    c.retries <= budget && (c.state != Failed ==> c.retries < budget)
  }

  /** No chunk has failed more often than its job allows, and one that can still run has failures
      to spare. */
  ghost predicate BudgetsKept(t: Tables) {
    forall id :: id in t.chunks ==> WithinBudget(t.chunks[id], Budget(t, t.chunks[id].job))
  }

  function NewBudget(m: Manifest): int
    requires m.plan.Some?
  {
    if m.plan.value.maxRetries < 1 then 1 else m.plan.value.maxRetries
  }

  /** Sending a chunk that has used up its budget back to work by hand, or by a late revert; or an
      edit that keeps the chunks but lowers the budget below what one of them has used. */
  predicate Overdraws(t: Tables, s: Step) {
    match s
    case Revert(job, range) =>
      exists id | id in t.chunks :: t.chunks[id].job == job && t.chunks[id].range == range
                                    && t.chunks[id].state == Failed && t.chunks[id].retries >= Budget(t, job)
    case Reassign(id, _, _) =>
      id in t.chunks && t.chunks[id].state == Failed && t.chunks[id].retries >= Budget(t, t.chunks[id].job)
    case Edit(job, m, mode, _) =>
      && m.plan.Some? && mode != StartOver && job in t.jobs
      && exists id | id in t.chunks :: t.chunks[id].job == job && !WithinBudget(t.chunks[id], NewBudget(m))
    case _ => false
  }

  ghost predicate NeverOverdraws(t: Tables, steps: seq<Step>)
    decreases |steps|
  {
    steps == [] || (!Overdraws(t, steps[0]) && NeverOverdraws(Apply(t, steps[0]), steps[1..]))
  }

  /** One step keeps every budget exactly when it is none of those. */
  lemma BudgetStep(t: Tables, s: Step)
    requires Inv(t) && BudgetsKept(t)
    ensures BudgetsKept(Apply(t, s)) <==> !Overdraws(t, s)
  {
    var t' := Apply(t, s);
    match s {
      case Submit(_, _, _, _) => NewJobWithinBudget(t, s);
      case Resubmit(_, _, _) => NewJobWithinBudget(t, s);
      case Edit(_, _, _, _) => EditWithinBudget(t, s);
      case Fail(r) => FailWithinBudget(t, r);
      case Revert(_, _) => RevertWithinBudget(t, s);
      case Reassign(_, _, _) => ReassignWithinBudget(t, s);
      case _ => PlainWithinBudget(t, s);
    }
  }

  lemma NewJobWithinBudget(t: Tables, s: Step)
    requires Inv(t) && BudgetsKept(t) && (s.Submit? || s.Resubmit?)
    ensures BudgetsKept(Apply(t, s))
  {
    if s.job in t.jobs {
    } else if s.Submit? && s.manifest.plan.Some? {
      FreshRowsWithinBudget(t, s.job, s.manifest, s.priority, s.at, PlannedChunks(s.job, s.manifest.plan.value));
    } else if s.Resubmit? && CanResubmit(t, s.source) {
      FreshRowsWithinBudget(t, s.job, t.jobs[s.source].manifest, t.jobs[s.source].priority, s.at,
                            CopiedChunks(t, s.source, s.job, s.at));
    }
  }

  lemma FreshRowsWithinBudget(t: Tables, job: JobId, m: Manifest, priority: int, at: int, rows: seq<Chunk>)
    requires Inv(t) && BudgetsKept(t) && job !in t.jobs
    requires forall i :: 0 <= i < |rows| ==> rows[i].job == job && rows[i].retries == 0
    ensures BudgetsKept(Submitted(t, job, m, priority, at, rows))
  {
    var t' := Submitted(t, job, m, priority, at, rows);
    SubmittedRows(t, job, m, priority, at, rows);
    forall id | id in t'.chunks
      ensures WithinBudget(t'.chunks[id], Budget(t', t'.chunks[id].job))
    {
      if t'.chunks[id].job != job {
        assert t'.jobs[t.chunks[id].job] == t.jobs[t.chunks[id].job];
      }
    }
  }

  lemma EditWithinBudget(t: Tables, s: Step)
    requires Inv(t) && BudgetsKept(t) && s.Edit?
    ensures BudgetsKept(Apply(t, s)) <==> !Overdraws(t, s)
  {
    var t' := Apply(t, s);
    if s.manifest.plan.Some? && s.job in t.jobs {
      assert Budget(t', s.job) == NewBudget(s.manifest);
      if s.mode == StartOver {
        StartOverWithinBudget(t, s);
      } else {
        KeptRowsWithinBudget(t, s);
      }
    }
  }

  lemma StartOverWithinBudget(t: Tables, s: Step)
    requires Inv(t) && BudgetsKept(t) && s.Edit? && s.manifest.plan.Some? && s.job in t.jobs && s.mode == StartOver
    ensures BudgetsKept(Apply(t, s))
  {
    hide RowOk, RangesDisjoint, JobsOk;
    var t' := Apply(t, s);
    forall id | id in t'.chunks
      ensures WithinBudget(t'.chunks[id], Budget(t', t'.chunks[id].job))
    {
      if t'.chunks[id].job == s.job {
        assert t'.chunks[id].retries == 0 && t'.chunks[id].state == Pending;
      } else {
        assert id in t.chunks && t'.chunks[id] == t.chunks[id] && t'.jobs[t.chunks[id].job] == t.jobs[t.chunks[id].job];
      }
    }
  }

  lemma KeptRowsWithinBudget(t: Tables, s: Step)
    requires Inv(t) && BudgetsKept(t) && s.Edit? && s.manifest.plan.Some? && s.job in t.jobs && s.mode != StartOver
    ensures BudgetsKept(Apply(t, s)) <==> !Overdraws(t, s)
  {
    var t' := Apply(t, s);
    assert t'.chunks.Keys == t.chunks.Keys;
    assert Budget(t', s.job) == NewBudget(s.manifest);
    forall id | id in t.chunks
      ensures t'.chunks[id].job == t.chunks[id].job
      ensures t.chunks[id].job != s.job ==> WithinBudget(t'.chunks[id], Budget(t', t.chunks[id].job))
      ensures WithinBudget(t'.chunks[id], NewBudget(s.manifest)) <==> WithinBudget(t.chunks[id], NewBudget(s.manifest))
    {
      if t.chunks[id].job != s.job {
        assert t'.chunks[id] == t.chunks[id] && t'.jobs[t.chunks[id].job] == t.jobs[t.chunks[id].job];
      }
    }
  }

  lemma FailWithinBudget(t: Tables, r: Report)
    requires Inv(t) && BudgetsKept(t)
    ensures BudgetsKept(Apply(t, Fail(r)))
  {
    var t' := Apply(t, Fail(r));
    forall id | id in t'.chunks
      ensures WithinBudget(t'.chunks[id], Budget(t', t'.chunks[id].job))
    {
      assert id in t.chunks;
      FailedRowIsCurrent(t, r, id);
    }
  }

  lemma RevertWithinBudget(t: Tables, s: Step)
    requires Inv(t) && BudgetsKept(t) && s.Revert?
    ensures BudgetsKept(Apply(t, s)) <==> !Overdraws(t, s)
  {
    var t' := Apply(t, s);
    if Overdraws(t, s) {
      var id :| id in t.chunks && t.chunks[id].job == s.job && t.chunks[id].range == s.range
        && t.chunks[id].state == Failed && t.chunks[id].retries >= Budget(t, s.job);
      assert !WithinBudget(t'.chunks[id], Budget(t', t'.chunks[id].job));
    }
  }

  lemma ReassignWithinBudget(t: Tables, s: Step)
    requires Inv(t) && BudgetsKept(t) && s.Reassign?
    ensures BudgetsKept(Apply(t, s)) <==> !Overdraws(t, s)
  {
    var t' := Apply(t, s);
    if s.id in t.chunks && Reassignable(t.chunks[s.id]) {
      assert t'.chunks[s.id].retries == t.chunks[s.id].retries && t'.chunks[s.id].state != Failed;
    }
  }

  lemma PlainWithinBudget(t: Tables, s: Step)
    requires Inv(t) && BudgetsKept(t)
    requires !(s.Submit? || s.Resubmit? || s.Edit? || s.Fail? || s.Revert? || s.Reassign?)
    ensures BudgetsKept(Apply(t, s))
  {
    hide RangesDisjoint, FramesFit, BlacklistFits, AllRequired, Submitted, Edited, CopiedChunks, FailedBy;
  }

  /** It happens: a chunk whose one try has failed is sent back to work by a late revert, or by hand. */
  lemma Overdrafts()
    ensures var t := Run(EMPTY, LEAKING_RUN[..3]);
            && Inv(t) && BudgetsKept(t)
            && !BudgetsKept(Apply(t, Revert("job", LEAK_RANGE)))
            && !BudgetsKept(Apply(t, Reassign(0, "", 2))) && !BudgetsKept(Apply(t, Reassign(0, "node", 2)))
  {
    hide Inv;
    var d := FailedForGood();
    EmptyIsInv();
    RunKeepsInv(EMPTY, LEAKING_RUN[..3]);
    SpentBudget(d);
    var t := LeakState(LEAK_JOB, d);
    BudgetStep(t, Revert("job", LEAK_RANGE));
    BudgetStep(t, Reassign(0, "", 2));
    BudgetStep(t, Reassign(0, "node", 2));
  }

  lemma SpentBudget(d: Chunk)
    requires d.job == "job" && d.range == LEAK_RANGE && d.state == Failed && d.retries == 1
    ensures var t := LeakState(LEAK_JOB, d);
            && BudgetsKept(t) && Overdraws(t, Revert("job", LEAK_RANGE))
            && Overdraws(t, Reassign(0, "", 2)) && Overdraws(t, Reassign(0, "node", 2))
  {
    var t := LeakState(LEAK_JOB, d);
    assert Budget(t, "job") == 1;
    assert 0 in t.chunks && t.chunks[0] == d;
  }

  lemma {:induction false} RunKeepsBudgets(t: Tables, steps: seq<Step>)
    requires Inv(t) && BudgetsKept(t) && NeverOverdraws(t, steps)
    ensures BudgetsKept(Run(t, steps))
    decreases |steps|
  {
    if steps != [] {
      StepKeepsInv(t, steps[0]);
      BudgetStep(t, steps[0]);
      RunKeepsBudgets(Apply(t, steps[0]), steps[1..]);
    }
  }

  // ---- The blacklist ----

  lemma BlacklistStep(t: Tables, s: Step, id: ChunkId)
    requires Inv(t) && id in t.chunks && id in Apply(t, s).chunks && s != RequeueAll(t.chunks[id].job)
    ensures Apply(t, s).chunks[id].job == t.chunks[id].job
    ensures t.chunks[id].failedOn <= Apply(t, s).chunks[id].failedOn
  {
    RowAfter(t, s, id);
  }

  /** Until its whole job is requeued, a surviving chunk's blacklist only grows, and the dispatcher
      never again offers the chunk to a node on it. */
  lemma {:induction false} BlacklistOnlyGrows(t: Tables, steps: seq<Step>, id: ChunkId)
    requires Inv(t) && id in t.chunks && id in Run(t, steps).chunks
    requires RequeueAll(t.chunks[id].job) !in steps
    ensures t.chunks[id].failedOn <= Run(t, steps).chunks[id].failedOn
    ensures forall node, tags :: node in t.chunks[id].failedOn ==> !Eligible(Run(t, steps), id, node, tags)
    decreases |steps|
  {
    hide Apply, RangesDisjoint, JobsOk;
    if steps != [] {
      var t' := Apply(t, steps[0]);
      StepKeepsInv(t, steps[0]);
      IdsAreKept(t, steps[0]);
      SurvivorWasThereAllAlong(t', steps[1..], id);
      BlacklistStep(t, steps[0], id);
      BlacklistOnlyGrows(t', steps[1..], id);
    }
    assert forall node :: node in t.chunks[id].failedOn ==> node in Run(t, steps).chunks[id].failedOn;
    assert "" !in t.chunks[id].failedOn;
  }

  /** An identified node whose failure is accepted is on the list from then on. */
  lemma FailureBlacklists(t: Tables, r: Report, id: ChunkId)
    requires Inv(t) && id in t.chunks && Current(t.chunks[id], r) && r.node != ""
    ensures id in Apply(t, Fail(r)).chunks && r.node in Apply(t, Fail(r)).chunks[id].failedOn
  {
    FailedRowIsCurrent(t, r, id);
  }

  // ---- Where assignments go ----

  datatype Ledger = Ledger(handed: int, completed: int, failed: int, withdrawn: int) {
    function Plus(other: Ledger): Ledger {
      Ledger(handed + other.handed, completed + other.completed, failed + other.failed, withdrawn + other.withdrawn)
    }
  }

  function Count(b: bool): int { if b then 1 else 0 }

  predicate InFlight(t: Tables, id: ChunkId) { id in t.chunks && t.chunks[id].state == Assigned }

  /** The step hands the row to a node, through the dispatcher or by hand. */
  predicate Hands(t: Tables, s: Step, id: ChunkId)
    requires id in t.chunks
  {
    || (s.Assign? && s.id == id && Eligible(t, id, s.node, s.tags))
    || (s.Reassign? && s.id == id && s.node != "" && Reassignable(t.chunks[id]))
  }

  /** The step takes the row away from the node that has it, without that node reporting. */
  predicate Withdraws(t: Tables, s: Step, id: ChunkId)
    requires id in t.chunks
  {
    && t.chunks[id].state == Assigned
    && match s
       case Revert(job, range) => t.chunks[id].job == job && t.chunks[id].range == range
       case Reclaim(node) => t.chunks[id].assignee == Some(node)
       case Stop(i) => i == id
       case Reassign(i, _, _) => i == id
       case RequeueAll(job) => t.chunks[id].job == job
       case Edit(job, m, mode, _) => t.chunks[id].job == job && m.plan.Some? && mode == Restart
       case _ => false
  }

  function Entry(t: Tables, s: Step, id: ChunkId): Ledger
    requires id in t.chunks
  {
    Ledger(Count(Hands(t, s, id)),
           Count(s.Complete? && Current(t.chunks[id], s.report)),
           Count(s.Fail? && Current(t.chunks[id], s.report)),
           Count(Withdraws(t, s, id)))
  }

  function Accounts(t: Tables, steps: seq<Step>, id: ChunkId): Ledger
    decreases |steps|
  {
    if steps == [] || id !in t.chunks then Ledger(0, 0, 0, 0)
    else Entry(t, steps[0], id).Plus(Accounts(Apply(t, steps[0]), steps[1..], id))
  }

  /** Every assignment of a surviving row ends in exactly one accepted completion, accepted failure
      or withdrawal, or is still running. */
  lemma {:induction false} AssignmentsBalance(t: Tables, steps: seq<Step>, id: ChunkId)
    requires Inv(t) && id in t.chunks && id in Run(t, steps).chunks
    ensures var a := Accounts(t, steps, id);
            Count(InFlight(t, id)) + a.handed == a.completed + a.failed + a.withdrawn + Count(InFlight(Run(t, steps), id))
    decreases |steps|
  {
    if steps != [] {
      var t' := Apply(t, steps[0]);
      StepKeepsInv(t, steps[0]);
      IdsAreKept(t, steps[0]);
      SurvivorWasThereAllAlong(t', steps[1..], id);
      StepBalances(t, steps[0], id);
      AssignmentsBalance(t', steps[1..], id);
    }
  }

  lemma StepBalances(t: Tables, s: Step, id: ChunkId)
    requires Inv(t) && id in t.chunks && id in Apply(t, s).chunks
    ensures var e := Entry(t, s, id);
            Count(InFlight(t, id)) + e.handed == e.completed + e.failed + e.withdrawn + Count(InFlight(Apply(t, s), id))
  {
    hide Apply, JobsOk, RangesDisjoint, FramesFit, BlacklistFits;
    RowAfter(t, s, id);
  }
}
