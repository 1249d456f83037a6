/** The worker's render coordinator: a queue of dispatches, at most one active render, and chunks
    held until their frames can be delivered. */
module RenderCoordinator {
  import opened Wrappers
  import opened ChunkPlan
  import opened Delivery

  type JobId = string

  const REQUEUE_PERIOD_MS := 2000
  const CONNECT_TIMEOUT_S := 10
  const DISCONNECT_GRACE_S := 30
  const DELIVERY_RETRY_S := 30
  const DELIVERY_TIMEOUT_S := 600

  /** A directory: the local staging directory of a chunk, or a job's output directory. */
  datatype Dir = Staging(job: JobId, range: Range) | Output(path: string)

  /** A chunk handed to the coordinator. The ticket numbers dispatches in order of arrival; the
      program has no such number, the model uses it to tell equal dispatches apart. */
  datatype Dispatch = Dispatch(ticket: nat, job: JobId, range: Range, epoch: int, outputDir: Option<string>)

  datatype Active = Active(dispatch: Dispatch, staged: bool)

  /** A rendered chunk whose frames have not reached their destination; `tries` counts the retries
      that failed. */
  datatype Held = Held(dispatch: Dispatch, first: int, last: int, tries: nat)

  datatype Verdict = Completed | Failed | Abandoned

  datatype Callback = Callback(dispatch: Dispatch, verdict: Verdict)

  datatype State = State(
    queue: seq<Dispatch>,
    active: Option<Active>,
    held: seq<Held>,
    deleted: set<JobId>,
    stopped: bool,
    staging: bool,
    requeuing: bool, requeueStart: int, lastRequeue: int,
    grace: bool, graceStart: int,
    disk: map<Dir, Files>,
    accepted: seq<Dispatch>,
    reported: seq<Callback>,
    dropped: seq<Dispatch>)

  const INITIAL := State([], None, [], {}, false, false, false, 0, 0, false, 0, map[], [], [], [])

  /** What the outside world does during one update: the agent, the staging directory, and the file
      systems on each retry. */
  datatype World = World(
    connected: bool, spawned: bool, stagingMade: bool,
    stillConnected: bool, processAlive: bool,
    attempts: seq<Attempt>)

  datatype Event =
    | Queue(job: JobId, range: Range, epoch: int, outputDir: Option<string>)
    | Update(now: int, world: World)
    | AgentCompleted(now: int, attempt: Attempt)
    | AgentFailed
    | Abort
    | Abandon
    | Purge(job: JobId)
    | MarkDeleted(job: JobId)
    | SetStopped(stopped: bool)
    | SetStaging(enabled: bool)
    | Write(dir: Dir, files: Files) // anyone else writing to a directory

  // ---- Effects ----

  function FilesIn(s: State, d: Dir): Files { if d in s.disk then s.disk[d] else map[] }

  function StagingOf(d: Dispatch): Dir { Staging(d.job, d.range) }

  function OutputOf(d: Dispatch): Dir { Output(d.outputDir.GetOr("")) }

  function Reporting(s: State, d: Dispatch, v: Verdict): State { s.(reported := s.reported + [Callback(d, v)]) }

  /** One delivery attempt: copy, and on success clear the staging directory. */
  function Delivering(s: State, d: Dispatch, a: Attempt): State {
    var staged := FilesIn(s, StagingOf(d));
    s.(disk := s.disk[OutputOf(d) := Copied(staged, FilesIn(s, OutputOf(d)), a)][StagingOf(d) := LeftStaged(staged, a)])
  }

  predicate Delivers(s: State, d: Dispatch, a: Attempt) { CopySucceeds(FilesIn(s, StagingOf(d)), a) }

  predicate RetryDue(h: Held, now: int) { (now - h.last) / 1000 >= DELIVERY_RETRY_S }

  predicate TimedOut(h: Held, now: int) { (now - h.first) / 1000 >= DELIVERY_TIMEOUT_S }

  /** One held chunk in one update: dropped with its job, left alone, delivered, given up or kept. */
  function Retried(s: State, h: Held, now: int, a: Attempt): (State, Option<Held>) {
    var d := h.dispatch;
    if d.job in s.deleted then (s.(dropped := s.dropped + [d]), None)
    else if !RetryDue(h, now) then (s, Some(h))
    else
      var s' := Delivering(s, d, a);
      if Delivers(s, d, a) then (Reporting(s', d, Completed), None)
      else if TimedOut(h, now) then (Reporting(s', d, Failed), None)
      else (s', Some(h.(last := now, tries := h.tries + 1)))
  }

  /** All held chunks in turn; `kept` are those already passed over and still held. */
  function RetryAll(s: State, todo: seq<Held>, kept: seq<Held>, now: int, attempts: seq<Attempt>): State
    requires |attempts| == |todo|
    decreases |todo|
  {
    if todo == [] then s.(held := kept) else
      var (s', h) := Retried(s, todo[0], now, attempts[0]);
      RetryAll(s', todo[1..], if h.Some? then kept + [h.value] else kept, now, attempts[1..])
  }

  function FailActive(s: State): State {
    if s.active.None? then s else
      Reporting(s.(active := None, grace := false), s.active.value.dispatch, Failed)
  }

  /** Staging is set up when it is on, the job names an output directory and the staging directory
      could be made; otherwise the renderer writes straight to the output. */
  function Started(s: State, d: Dispatch, stagingMade: bool): State {
    s.(active := Some(Active(d, s.staging && d.outputDir.Some? && d.outputDir.value != "" && stagingMade)),
       requeuing := false, grace := false)
  }

  /** The agent is not there: spawn it the first time, then wait, then give up. */
  function Waiting(s: State, d: Dispatch, now: int, spawned: bool): State {
    var s1 := if s.requeuing then s else s.(requeuing := true, requeueStart := now, lastRequeue := now);
    if !s.requeuing && !spawned then Reporting(s1.(requeuing := false), d, Failed)
    else if (now - s1.requeueStart) / 1000 >= CONNECT_TIMEOUT_S then Reporting(s1.(requeuing := false), d, Failed)
    else s1.(lastRequeue := now, queue := s1.queue + [d])
  }

  /** The agent's pipe during a render: a grace period starts when it drops and ends with its return,
      the death of the process, or time. */
  function Watched(s: State, now: int, w: World): State {
    if s.active.None? then s else
      var s1 := if !w.stillConnected && !s.grace then s.(grace := true, graceStart := now) else s;
      if !s1.grace then s1
      else if w.stillConnected then s1.(grace := false)
      else if !w.processAlive || (now - s1.graceStart) / 1000 >= DISCONNECT_GRACE_S then FailActive(s1)
      else s1
  }

  function Dequeued(s: State, now: int, w: World): State {
    if s.active.Some? then Watched(s, now, w)
    else if s.requeuing && now - s.lastRequeue < REQUEUE_PERIOD_MS then s
    else if s.queue == [] then s
    else Begun(s.(queue := s.queue[1..]), s.queue[0], now, w)
  }

  function Begun(s: State, d: Dispatch, now: int, w: World): State {
    if s.stopped then Reporting(s, d, Abandoned)
    else if !w.connected then Waiting(s, d, now, w.spawned)
    else Watched(Started(s, d, w.stagingMade), now, w)
  }

  function Finished(s: State, now: int, a: Attempt): State {
    if s.active.None? then s else
      var d := s.active.value.dispatch;
      if !s.active.value.staged then Reporting(s.(active := None), d, Completed)
      else
        var s' := Delivering(s, d, a).(active := None);
        if Delivers(s, d, a) then Reporting(s', d, Completed)
        else s'.(held := s'.held + [Held(d, now, now, 0)])
  }

  function OfJob(q: seq<Dispatch>, job: JobId): seq<Dispatch> {
    if q == [] then [] else (if q[0].job == job then [q[0]] else []) + OfJob(q[1..], job)
  }

  function NotOfJob(q: seq<Dispatch>, job: JobId): seq<Dispatch> {
    if q == [] then [] else (if q[0].job != job then [q[0]] else []) + NotOfJob(q[1..], job)
  }

  /** Needs one attempt for each held chunk. */
  predicate Fits(s: State, e: Event) { e.Update? ==> |e.world.attempts| == |s.held| }

  function Next(s: State, e: Event): State
    requires Fits(s, e)
  {
    match e
    case Queue(job, range, epoch, out) =>
      var d := Dispatch(|s.accepted|, job, range, epoch, out);
      s.(queue := s.queue + [d], accepted := s.accepted + [d])
    case Update(now, w) => Dequeued(RetryAll(s, s.held, [], now, w.attempts), now, w)
    case AgentCompleted(now, a) => Finished(s, now, a)
    case AgentFailed => FailActive(s)
    case Abort => FailActive(s)
    case Abandon =>
      if s.active.None? then s else Reporting(s.(active := None, grace := false), s.active.value.dispatch, Abandoned)
    case Purge(job) => s.(queue := NotOfJob(s.queue, job), dropped := s.dropped + OfJob(s.queue, job))
    case MarkDeleted(job) => s.(deleted := s.deleted + {job})
    case SetStopped(b) => s.(stopped := b)
    case SetStaging(b) => s.(staging := b)
    case Write(dir, files) => s.(disk := s.disk[dir := FilesIn(s, dir) + files])
  }

  ghost predicate AllFit(s: State, events: seq<Event>)
    decreases |events|
  {
    events == [] || (Fits(s, events[0]) && AllFit(Next(s, events[0]), events[1..]))
  }

  function Run(s: State, events: seq<Event>): State
    requires AllFit(s, events)
    decreases |events|
  {
    if events == [] then s else Run(Next(s, events[0]), events[1..])
  }

  // ---- Exactly one fate ----

  function Count(ds: seq<Dispatch>, d: Dispatch): nat {
    if ds == [] then 0 else (if ds[0] == d then 1 else 0) + Count(ds[1..], d)
  }

  function HeldOf(hs: seq<Held>): seq<Dispatch> { seq(|hs|, i requires 0 <= i < |hs| => hs[i].dispatch) }

  function ReportedOf(cs: seq<Callback>): seq<Dispatch> { seq(|cs|, i requires 0 <= i < |cs| => cs[i].dispatch) }

  function ActiveOf(a: Option<Active>): seq<Dispatch> { if a.Some? then [a.value.dispatch] else [] }

  /** How often a dispatch is anywhere but on the held list. */
  function Elsewhere(s: State, d: Dispatch): nat {
    Count(s.queue, d) + Count(ActiveOf(s.active), d) + Count(ReportedOf(s.reported), d) + Count(s.dropped, d)
  }

  /** How often it is anywhere at all. */
  function Places(s: State, d: Dispatch): nat { Elsewhere(s, d) + Count(HeldOf(s.held), d) }

  /** Every dispatch is somewhere exactly as often as it was accepted. */
  ghost predicate Balanced(s: State) {
    && (forall d :: Places(s, d) == Count(s.accepted, d))
    && forall i :: 0 <= i < |s.accepted| ==> s.accepted[i].ticket == i
  }

  lemma {:induction false} CountCat(a: seq<Dispatch>, b: seq<Dispatch>, d: Dispatch)
    ensures Count(a + b, d) == Count(a, d) + Count(b, d)
    decreases |a|
  {
    if a == [] {
      assert a + b == b;
    } else {
      assert (a + b)[1..] == a[1..] + b;
      CountCat(a[1..], b, d);
    }
  }

  function One(d: Dispatch, e: Dispatch): nat { if d == e then 1 else 0 }

  lemma CountSnoc(a: seq<Dispatch>, e: Dispatch, d: Dispatch)
    ensures Count(a + [e], d) == Count(a, d) + One(e, d)
  {
    CountCat(a, [e], d);
  }

  lemma ReportingCounts(s: State, e: Dispatch, v: Verdict, d: Dispatch)
    ensures Elsewhere(Reporting(s, e, v), d) == Elsewhere(s, d) + One(e, d)
  {
    var cs := s.reported + [Callback(e, v)];
    assert ReportedOf(cs) == ReportedOf(s.reported) + [e];
    CountSnoc(ReportedOf(s.reported), e, d);
  }

  lemma {:induction false} PurgeSplits(q: seq<Dispatch>, job: JobId, d: Dispatch)
    ensures Count(q, d) == Count(OfJob(q, job), d) + Count(NotOfJob(q, job), d)
    decreases |q|
  {
    if q != [] {
      PurgeSplits(q[1..], job, d);
      CountCat(if q[0].job == job then [q[0]] else [], OfJob(q[1..], job), d);
      CountCat(if q[0].job != job then [q[0]] else [], NotOfJob(q[1..], job), d);
    }
  }

  lemma DeliveringCounts(s: State, e: Dispatch, a: Attempt, d: Dispatch)
    ensures Elsewhere(Delivering(s, e, a), d) == Elsewhere(s, d)
  {
  }

  lemma RetriedCounts(s: State, h: Held, now: int, a: Attempt, d: Dispatch)
    ensures var (s', k) := Retried(s, h, now, a);
            && s'.accepted == s.accepted && s'.held == s.held
            && (k.Some? ==> k.value.dispatch == h.dispatch)
            && Elsewhere(s', d) == Elsewhere(s, d) + if k.Some? then 0 else One(h.dispatch, d)
  {
    if h.dispatch.job in s.deleted {
      CountSnoc(s.dropped, h.dispatch, d);
    } else if RetryDue(h, now) {
      DeliveringCounts(s, h.dispatch, a, d);
      ReportingCounts(Delivering(s, h.dispatch, a), h.dispatch, Completed, d);
      ReportingCounts(Delivering(s, h.dispatch, a), h.dispatch, Failed, d);
    }
  }

  lemma {:induction false} RetryAllCounts(s: State, todo: seq<Held>, kept: seq<Held>, now: int, attempts: seq<Attempt>, d: Dispatch)
    requires |attempts| == |todo|
    ensures var s' := RetryAll(s, todo, kept, now, attempts);
            && s'.accepted == s.accepted
            && Places(s', d) == Elsewhere(s, d) + Count(HeldOf(todo), d) + Count(HeldOf(kept), d)
    decreases |todo|
  {
    if todo != [] {
      var (s', k) := Retried(s, todo[0], now, attempts[0]);
      RetriedCounts(s, todo[0], now, attempts[0], d);
      RetryAllCounts(s', todo[1..], if k.Some? then kept + [k.value] else kept, now, attempts[1..], d);
      assert HeldOf(todo)[1..] == HeldOf(todo[1..]);
      if k.Some? {
        assert HeldOf(kept + [k.value]) == HeldOf(kept) + [k.value.dispatch];
        CountSnoc(HeldOf(kept), k.value.dispatch, d);
      }
    }
  }

  lemma WaitingCounts(s: State, e: Dispatch, now: int, spawned: bool, d: Dispatch)
    ensures var s' := Waiting(s, e, now, spawned);
            s'.accepted == s.accepted && s'.held == s.held && Elsewhere(s', d) == Elsewhere(s, d) + One(e, d)
  {
    var s1 := if s.requeuing then s else s.(requeuing := true, requeueStart := now, lastRequeue := now);
    ReportingCounts(s1.(requeuing := false), e, Failed, d);
    CountSnoc(s.queue, e, d);
  }

  lemma ActiveCounts(s: State, v: Verdict, d: Dispatch)
    requires s.active.Some?
    ensures Elsewhere(Reporting(s.(active := None), s.active.value.dispatch, v), d) == Elsewhere(s, d)
    ensures Elsewhere(Reporting(s.(active := None, grace := false), s.active.value.dispatch, v), d) == Elsewhere(s, d)
  {
    var e := s.active.value.dispatch;
    assert Count(ActiveOf(s.active), d) == One(e, d) by { assert [e][1..] == []; }
    ReportingCounts(s.(active := None), s.active.value.dispatch, v, d);
    ReportingCounts(s.(active := None, grace := false), s.active.value.dispatch, v, d);
  }

  lemma FailActiveCounts(s: State, d: Dispatch)
    ensures var s' := FailActive(s); s'.accepted == s.accepted && s'.held == s.held && Elsewhere(s', d) == Elsewhere(s, d)
  {
    if s.active.Some? { ActiveCounts(s, Failed, d); }
  }

  lemma WatchedCounts(s: State, now: int, w: World, d: Dispatch)
    ensures var s' := Watched(s, now, w); s'.accepted == s.accepted && s'.held == s.held && Elsewhere(s', d) == Elsewhere(s, d)
  {
    if s.active.Some? {
      var s1 := if !w.stillConnected && !s.grace then s.(grace := true, graceStart := now) else s;
      assert Elsewhere(s1, d) == Elsewhere(s, d);
      FailActiveCounts(s1, d);
    }
  }

  lemma DequeuedCounts(s: State, now: int, w: World, d: Dispatch)
    ensures var s' := Dequeued(s, now, w); s'.accepted == s.accepted && s'.held == s.held && Elsewhere(s', d) == Elsewhere(s, d)
  {
    if s.active.Some? {
      WatchedCounts(s, now, w, d);
    } else if !(s.requeuing && now - s.lastRequeue < REQUEUE_PERIOD_MS) && s.queue != [] {
      var e, s1 := s.queue[0], s.(queue := s.queue[1..]);
      if s.stopped {
        ReportingCounts(s1, e, Abandoned, d);
      } else if !w.connected {
        WaitingCounts(s1, e, now, w.spawned, d);
      } else {
        StartedCounts(s1, e, w.stagingMade, d);
        WatchedCounts(Started(s1, e, w.stagingMade), now, w, d);
      }
    }
  }

  lemma StartedCounts(s: State, e: Dispatch, made: bool, d: Dispatch)
    requires s.active.None?
    ensures var s' := Started(s, e, made); s'.accepted == s.accepted && s'.held == s.held && Elsewhere(s', d) == Elsewhere(s, d) + One(e, d)
  {
    assert Count(ActiveOf(Started(s, e, made).active), d) == One(e, d) by { assert [e][1..] == []; }
  }

  lemma FinishedCounts(s: State, now: int, a: Attempt, d: Dispatch)
    ensures Finished(s, now, a).accepted == s.accepted && Places(Finished(s, now, a), d) == Places(s, d)
  {
    hide Delivering, Delivers;
    if s.active.Some? {
      var e := s.active.value.dispatch;
      if !s.active.value.staged {
        ActiveCounts(s, Completed, d);
      } else {
        var s1 := Delivering(s, e, a);
        DeliveringKeeps(s, e, a);
        ActiveCounts(s1, Completed, d);
        HeldCounts(s1, Held(e, now, now, 0), d);
      }
    }
  }

  lemma DeliveringKeeps(s: State, e: Dispatch, a: Attempt)
    ensures var s1 := Delivering(s, e, a);
            && s1.accepted == s.accepted && s1.queue == s.queue && s1.active == s.active && s1.held == s.held
            && s1.reported == s.reported && s1.dropped == s.dropped
  {
  }

  /** Holding the active render instead of reporting it. */
  lemma HeldCounts(s: State, h: Held, d: Dispatch)
    requires s.active.Some? && h.dispatch == s.active.value.dispatch
    ensures Places(s.(active := None, held := s.held + [h]), d) == Places(s, d)
  {
    var e := h.dispatch;
    assert Count(ActiveOf(s.active), d) == One(e, d) by { assert [e][1..] == []; }
    assert HeldOf(s.held + [h]) == HeldOf(s.held) + [e];
    CountSnoc(HeldOf(s.held), e, d);
  }

  /** What one event does to the count of a dispatch: nothing, unless it is the one being accepted. */
  lemma StepCounts(s: State, e: Event, d: Dispatch)
    requires Fits(s, e)
    ensures var s' := Next(s, e);
            Places(s', d) - Count(s'.accepted, d) == Places(s, d) - Count(s.accepted, d)
  {
    hide Retried, RetryAll, Dequeued, Finished, FailActive, OfJob, NotOfJob, One, Delivering, Count;
    match e {
      case Queue(job, range, epoch, out) =>
        var n := Dispatch(|s.accepted|, job, range, epoch, out);
        CountSnoc(s.queue, n, d);
        CountSnoc(s.accepted, n, d);
      case Update(now, w) => UpdateCounts(s, now, w, d);
      case AgentCompleted(now, a) => FinishedCounts(s, now, a, d);
      case AgentFailed => FailActiveCounts(s, d);
      case Abort => FailActiveCounts(s, d);
      case Abandon => if s.active.Some? { ActiveCounts(s, Abandoned, d); }
      case Purge(job) =>
        PurgeSplits(s.queue, job, d);
        CountCat(s.dropped, OfJob(s.queue, job), d);
      case _ =>
    }
  }

  lemma UpdateCounts(s: State, now: int, w: World, d: Dispatch)
    requires |w.attempts| == |s.held|
    ensures var s' := Next(s, Update(now, w));
            s'.accepted == s.accepted && Places(s', d) == Places(s, d)
  {
    hide RetryAll, Dequeued, One;
    RetryAllCounts(s, s.held, [], now, w.attempts, d);
    assert HeldOf([]) == [];
    DequeuedCounts(RetryAll(s, s.held, [], now, w.attempts), now, w, d);
  }

  lemma AcceptedGrows(s: State, e: Event)
    requires Fits(s, e)
    ensures Next(s, e).accepted == s.accepted
            || (e.Queue? && Next(s, e).accepted == s.accepted + [Dispatch(|s.accepted|, e.job, e.range, e.epoch, e.outputDir)])
  {
    match e {
      case Update(now, w) =>
        var d := Dispatch(0, "", Range(0, 0), 0, None);
        RetryAllCounts(s, s.held, [], now, w.attempts, d);
        DequeuedCounts(RetryAll(s, s.held, [], now, w.attempts), now, w, d);
      case AgentCompleted(now, a) => FinishedCounts(s, now, a, Dispatch(0, "", Range(0, 0), 0, None));
      case _ =>
    }
  }

  lemma StepBalances(s: State, e: Event)
    requires Balanced(s) && Fits(s, e)
    ensures Balanced(Next(s, e))
  {
    AcceptedGrows(s, e);
    forall d
      ensures Places(Next(s, e), d) == Count(Next(s, e).accepted, d)
    {
      StepCounts(s, e, d);
    }
  }

  /** Conservation over whole runs: after every event, the dispatches ever accepted are exactly those
      queued, active, held, reported or silently dropped. */
  lemma {:induction false} RunBalances(s: State, events: seq<Event>)
    requires Balanced(s) && AllFit(s, events)
    ensures Balanced(Run(s, events))
    decreases |events|
  {
    if events != [] {
      StepBalances(s, events[0]);
      RunBalances(Next(s, events[0]), events[1..]);
    }
  }

  lemma InitiallyBalanced()
    ensures Balanced(INITIAL)
  {
  }

  lemma {:induction false} CountOnce(ds: seq<Dispatch>, i: nat, base: nat)
    requires i < |ds| && forall j :: 0 <= j < |ds| ==> ds[j].ticket == base + j
    ensures Count(ds, ds[i]) == 1
    decreases |ds|
  {
    if i == 0 {
      CountNone(ds[1..], ds[0], base + 1);
    } else {
      CountOnce(ds[1..], i - 1, base + 1);
    }
  }

  lemma {:induction false} CountNone(ds: seq<Dispatch>, d: Dispatch, base: nat)
    requires d.ticket < base && forall j :: 0 <= j < |ds| ==> ds[j].ticket == base + j
    ensures Count(ds, d) == 0
    decreases |ds|
  {
    if ds != [] { CountNone(ds[1..], d, base + 1); }
  }

  /** One fate each, in any run from the start: an accepted dispatch is in exactly one place, once. So
      it is reported at most once, and never both reported and still in hand. */
  lemma OneFate(events: seq<Event>, d: Dispatch)
    requires AllFit(INITIAL, events) && d in Run(INITIAL, events).accepted
    ensures var s := Run(INITIAL, events);
            Count(s.queue, d) + Count(ActiveOf(s.active), d) + Count(HeldOf(s.held), d)
            + Count(ReportedOf(s.reported), d) + Count(s.dropped, d) == 1
  {
    InitiallyBalanced();
    RunBalances(INITIAL, events);
    var s := Run(INITIAL, events);
    var i :| 0 <= i < |s.accepted| && s.accepted[i] == d;
    CountOnce(s.accepted, i, 0);
    assert Places(s, d) == Count(s.accepted, d);
  }

  // ---- Completed means delivered ----

  /** The files of a chunk are where they belong, at this moment. */
  ghost predicate AtDestination(before: State, after: State, d: Dispatch) {
    Arrived(FilesIn(before, StagingOf(d)), FilesIn(after, OutputOf(d)), FilesIn(before, StagingOf(d)).Keys)
  }

  /** What is going on in a moment, as far as files are concerned. */
  datatype Doing =
    | Retrying(held: Held, now: int, attempt: Attempt)
    | Finishing(attempt: Attempt)
    | Writing(dir: Dir, files: Files)
    | Otherwise

  /** One elementary change of state: an event, or one of the retries and the dequeueing that an update
      goes through in turn. */
  datatype Moment = Moment(before: State, after: State, doing: Doing)

  datatype Trial = Trial(dispatch: Dispatch, attempt: Attempt)

  /** The delivery attempt of a moment, if it makes one. */
  function Tried(m: Moment): Option<Trial> {
    match m.doing
    case Retrying(h, now, a) =>
      if h.dispatch.job !in m.before.deleted && RetryDue(h, now) then Some(Trial(h.dispatch, a)) else None
    case Finishing(a) =>
      if m.before.active.Some? && m.before.active.value.staged then Some(Trial(m.before.active.value.dispatch, a)) else None
    case _ => None
  }

  function RetryMoments(s: State, todo: seq<Held>, kept: seq<Held>, now: int, attempts: seq<Attempt>): seq<Moment>
    requires |attempts| == |todo|
    decreases |todo|
  {
    if todo == [] then [Moment(s, s.(held := kept), Otherwise)] else
      var (s', h) := Retried(s, todo[0], now, attempts[0]);
      [Moment(s, s', Retrying(todo[0], now, attempts[0]))]
      + RetryMoments(s', todo[1..], if h.Some? then kept + [h.value] else kept, now, attempts[1..])
  }

  function Moments(s: State, e: Event): seq<Moment>
    requires Fits(s, e)
  {
    match e
    case Update(now, w) =>
      RetryMoments(s, s.held, [], now, w.attempts) + [Moment(RetryAll(s, s.held, [], now, w.attempts), Next(s, e), Otherwise)]
    case AgentCompleted(_, a) => [Moment(s, Next(s, e), Finishing(a))]
    case Write(dir, files) => [Moment(s, Next(s, e), Writing(dir, files))]
    case _ => [Moment(s, Next(s, e), Otherwise)]
  }

  function RunMoments(s: State, events: seq<Event>): seq<Moment>
    requires AllFit(s, events)
    decreases |events|
  {
    if events == [] then [] else Moments(s, events[0]) + RunMoments(Next(s, events[0]), events[1..])
  }

  /** The moments lead from one state to the other, each taking up where the last left off. */
  ghost predicate Leads(s: State, ms: seq<Moment>, s': State)
    decreases |ms|
  {
    if ms == [] then s == s' else ms[0].before == s && Leads(ms[0].after, ms[1..], s')
  }

  lemma {:induction false} LeadsOn(s: State, a: seq<Moment>, s1: State, b: seq<Moment>, s2: State)
    requires Leads(s, a, s1) && Leads(s1, b, s2)
    ensures Leads(s, a + b, s2)
    decreases |a|
  {
    if a == [] {
      assert a + b == b;
    } else {
      assert (a + b)[1..] == a[1..] + b;
      LeadsOn(a[0].after, a[1..], s1, b, s2);
    }
  }

  lemma {:induction false} RetryMomentsLead(s: State, todo: seq<Held>, kept: seq<Held>, now: int, attempts: seq<Attempt>)
    requires |attempts| == |todo|
    ensures Leads(s, RetryMoments(s, todo, kept, now, attempts), RetryAll(s, todo, kept, now, attempts))
    decreases |todo|
  {
    hide Retried;
    if todo != [] {
      var (s', h) := Retried(s, todo[0], now, attempts[0]);
      RetryMomentsLead(s', todo[1..], if h.Some? then kept + [h.value] else kept, now, attempts[1..]);
      assert RetryMoments(s, todo, kept, now, attempts)[1..]
          == RetryMoments(s', todo[1..], if h.Some? then kept + [h.value] else kept, now, attempts[1..]);
    }
  }

  lemma MomentsLead(s: State, e: Event)
    requires Fits(s, e)
    ensures Leads(s, Moments(s, e), Next(s, e))
  {
    hide RetryAll, RetryMoments, Next;
    if e.Update? {
      var s1 := RetryAll(s, s.held, [], e.now, e.world.attempts);
      RetryMomentsLead(s, s.held, [], e.now, e.world.attempts);
      LeadsOn(s, RetryMoments(s, s.held, [], e.now, e.world.attempts), s1, [Moment(s1, Next(s, e), Otherwise)], Next(s, e));
    }
  }

  /** The moments of a run are the run. */
  lemma {:induction false} RunMomentsLead(s: State, events: seq<Event>)
    requires AllFit(s, events)
    ensures Leads(s, RunMoments(s, events), Run(s, events))
    decreases |events|
  {
    hide Next, Moments;
    if events != [] {
      MomentsLead(s, events[0]);
      RunMomentsLead(Next(s, events[0]), events[1..]);
      LeadsOn(s, Moments(s, events[0]), Next(s, events[0]), RunMoments(Next(s, events[0]), events[1..]), Run(s, events));
    }
  }

  /** The renderer, which was not staged, has just finished: the frames are where it wrote them. */
  ghost predicate WrittenInPlace(m: Moment, d: Dispatch) {
    m.doing.Finishing? && m.before.active == Some(Active(d, false))
  }

  /** The moment is a delivery attempt for the dispatch, not for a deleted job and not before its time, in
      which every copy succeeded. */
  ghost predicate Succeeded(m: Moment, d: Dispatch) {
    Tried(m).Some? && Tried(m).value.dispatch == d && Delivers(m.before, d, Tried(m).value.attempt)
  }

  /** In this moment the frames of the dispatch got where they belong: the renderer had written them there;
      or an attempt for this very dispatch succeeded, and every staged file that it was shown is there. */
  ghost predicate DeliveredIn(m: Moment, d: Dispatch) {
    || WrittenInPlace(m, d)
    || (Succeeded(m, d)
        && Arrived(FilesIn(m.before, StagingOf(d)), FilesIn(m.after, OutputOf(d)), Tried(m).value.attempt.listed))
  }

  /** Callbacks are only added, and a completion only where the frames have been delivered. */
  ghost predicate Honest(m: Moment) {
    && m.before.reported <= m.after.reported
    && forall i :: |m.before.reported| <= i < |m.after.reported| && m.after.reported[i].verdict == Completed ==>
         DeliveredIn(m, m.after.reported[i].dispatch)
  }

  lemma DeliveringArrives(s: State, d: Dispatch, a: Attempt)
    requires Delivers(s, d, a)
    ensures Arrived(FilesIn(s, StagingOf(d)), FilesIn(Delivering(s, d, a), OutputOf(d)), a.listed)
  {
    hide Arrived, Copied, LeftStaged, CopySucceeds;
    SuccessDelivers(FilesIn(s, StagingOf(d)), FilesIn(s, OutputOf(d)), a);
  }

  lemma ReportingKeepsFiles(s: State, d: Dispatch, v: Verdict)
    ensures FilesIn(Reporting(s, d, v), OutputOf(d)) == FilesIn(s, OutputOf(d))
    ensures FilesIn(Reporting(s.(active := None), d, v), OutputOf(d)) == FilesIn(s, OutputOf(d))
  {
  }

  /** A held chunk is reported completed only in the moment its staged frames are on the destination -
      all that the listing showed. */
  lemma RetryCompletesDelivered(s: State, h: Held, now: int, a: Attempt)
    ensures var (s', _) := Retried(s, h, now, a); var d := h.dispatch;
            || s'.reported == s.reported
            || s'.reported == s.reported + [Callback(d, Failed)]
            || (s'.reported == s.reported + [Callback(d, Completed)]
                && d.job !in s.deleted && RetryDue(h, now) && Delivers(s, d, a)
                && Arrived(FilesIn(s, StagingOf(d)), FilesIn(s', OutputOf(d)), a.listed))
  {
    hide Arrived, Delivering, Delivers, FilesIn;
    var d := h.dispatch;
    DeliveringKeeps(s, d, a);
    if Delivers(s, d, a) {
      DeliveringArrives(s, d, a);
      ReportingKeepsFiles(Delivering(s, d, a), d, Completed);
    }
  }

  lemma RetryIsHonest(s: State, h: Held, now: int, a: Attempt)
    ensures Honest(Moment(s, Retried(s, h, now, a).0, Retrying(h, now, a)))
  {
    hide Arrived, Retried, FilesIn, Delivers, RetryDue;
    RetryCompletesDelivered(s, h, now, a);
  }

  /** So is a staged chunk that the agent has just finished; otherwise it is held. */
  lemma FinishCompletesDelivered(s: State, now: int, a: Attempt)
    requires s.active.Some? && s.active.value.staged
    ensures var s' := Finished(s, now, a); var d := s.active.value.dispatch;
            if s'.reported == s.reported
            then s'.held == s.held + [Held(d, now, now, 0)]
            else s'.reported == s.reported + [Callback(d, Completed)]
                 && Delivers(s, d, a)
                 && Arrived(FilesIn(s, StagingOf(d)), FilesIn(s', OutputOf(d)), a.listed)
  {
    hide Arrived, Delivering, Delivers, FilesIn;
    var d := s.active.value.dispatch;
    DeliveringKeeps(s, d, a);
    if Delivers(s, d, a) {
      DeliveringArrives(s, d, a);
      ReportingKeepsFiles(Delivering(s, d, a), d, Completed);
    }
  }

  lemma FinishIsHonest(s: State, now: int, a: Attempt)
    ensures Honest(Moment(s, Finished(s, now, a), Finishing(a)))
  {
    hide Arrived, FilesIn, Delivering, Delivers;
    if s.active.Some? && s.active.value.staged { FinishCompletesDelivered(s, now, a); }
  }

  /** No other event reports a completion. */
  lemma OnlyTheseComplete(s: State, e: Event)
    requires Fits(s, e) && !e.Update? && !e.AgentCompleted?
    ensures s.reported <= Next(s, e).reported
    ensures forall i :: |s.reported| <= i < |Next(s, e).reported| ==> Next(s, e).reported[i].verdict != Completed
  {
  }

  /** Beginning and watching a render reports no completion. */
  lemma DequeueIsHonest(s: State, now: int, w: World)
    ensures Honest(Moment(s, Dequeued(s, now, w), Otherwise))
  {
    hide DeliveredIn, Watched;
    WatchedIsHonest(s, now, w);
    if s.queue != [] {
      var s1 := s.(queue := s.queue[1..]);
      WatchedIsHonest(Started(s1, s.queue[0], w.stagingMade), now, w);
    }
  }

  lemma WatchedIsHonest(s: State, now: int, w: World)
    ensures Watched(s, now, w).reported == s.reported
            || exists d :: Watched(s, now, w).reported == s.reported + [Callback(d, Failed)]
  {
  }

  lemma {:induction false} RetriesAreHonest(s: State, todo: seq<Held>, kept: seq<Held>, now: int, attempts: seq<Attempt>)
    requires |attempts| == |todo|
    ensures forall m :: m in RetryMoments(s, todo, kept, now, attempts) ==> Honest(m)
    decreases |todo|
  {
    hide Retried, DeliveredIn;
    if todo != [] {
      var (s', h) := Retried(s, todo[0], now, attempts[0]);
      RetryIsHonest(s, todo[0], now, attempts[0]);
      RetriesAreHonest(s', todo[1..], if h.Some? then kept + [h.value] else kept, now, attempts[1..]);
    }
  }

  lemma MomentsAreHonest(s: State, e: Event)
    requires Fits(s, e)
    ensures forall m :: m in Moments(s, e) ==> Honest(m)
  {
    hide RetryAll, RetryMoments, DeliveredIn, Dequeued, Finished, FailActive, Reporting;
    match e {
      case Update(now, w) =>
        RetriesAreHonest(s, s.held, [], now, w.attempts);
        DequeueIsHonest(RetryAll(s, s.held, [], now, w.attempts), now, w);
      case AgentCompleted(now, a) => FinishIsHonest(s, now, a);
      case _ => OnlyTheseComplete(s, e);
    }
  }

  lemma {:induction false} RunMomentsAreHonest(s: State, events: seq<Event>)
    requires AllFit(s, events)
    ensures forall m :: m in RunMoments(s, events) ==> Honest(m)
    decreases |events|
  {
    hide Next, Moments, Honest;
    if events != [] {
      MomentsAreHonest(s, events[0]);
      RunMomentsAreHonest(Next(s, events[0]), events[1..]);
    }
  }

  /** The moment in which the i-th callback was made. */
  lemma {:induction false} CallbackHasMoment(s: State, ms: seq<Moment>, s': State, i: nat) returns (k: nat)
    requires Leads(s, ms, s') && (forall m :: m in ms ==> Honest(m)) && |s.reported| <= i < |s'.reported|
    ensures s.reported <= s'.reported
    ensures k < |ms| && |ms[k].before.reported| <= i < |ms[k].after.reported| && ms[k].after.reported[i] == s'.reported[i]
    decreases |ms|
  {
    hide DeliveredIn;
    assert ms != [] && ms[0] in ms;
    OnlyAdded(ms[0].after, ms[1..], s');
    if i < |ms[0].after.reported| {
      k := 0;
    } else {
      k := CallbackHasMoment(ms[0].after, ms[1..], s', i);
      k := k + 1;
    }
  }

  lemma {:induction false} OnlyAdded(s: State, ms: seq<Moment>, s': State)
    requires Leads(s, ms, s') && forall m :: m in ms ==> Honest(m)
    ensures s.reported <= s'.reported
    decreases |ms|
  {
    hide DeliveredIn;
    if ms != [] {
      assert ms[0] in ms;
      OnlyAdded(ms[0].after, ms[1..], s');
    }
  }

  /** Completed means delivered, over every run: each completion that the run reports was reported in a
      moment of the run that delivered the frames of that very dispatch. No other moment reports one. */
  lemma CompletedMeansDelivered(s: State, events: seq<Event>, i: nat) returns (m: Moment)
    requires AllFit(s, events) && |s.reported| <= i < |Run(s, events).reported|
    requires Run(s, events).reported[i].verdict == Completed
    ensures m in RunMoments(s, events)
    ensures |m.before.reported| <= i < |m.after.reported| && m.after.reported[i] == Run(s, events).reported[i]
    ensures DeliveredIn(m, Run(s, events).reported[i].dispatch)
  {
    hide Run, RunMoments, DeliveredIn;
    RunMomentsLead(s, events);
    RunMomentsAreHonest(s, events);
    var k := CallbackHasMoment(s, RunMoments(s, events), Run(s, events), i);
    m := RunMoments(s, events)[k];
  }

  /** The listing shown to a successful delivery attempt names every staged file. */
  ghost predicate ListingFull(m: Moment) {
    var tried := Tried(m);
    tried.Some? && Delivers(m.before, tried.value.dispatch, tried.value.attempt) ==>
      FilesIn(m.before, StagingOf(tried.value.dispatch)).Keys <= tried.value.attempt.listed
  }

  ghost predicate ListingsFull(s: State, events: seq<Event>)
    requires AllFit(s, events)
  {
    forall m :: m in RunMoments(s, events) ==> ListingFull(m)
  }

  /** In a run whose listings are full, that is: every one of its staged files. A render that was not
      staged had nothing to deliver. */
  lemma AllFramesDelivered(s: State, events: seq<Event>, i: nat) returns (m: Moment)
    requires AllFit(s, events) && |s.reported| <= i < |Run(s, events).reported|
    requires Run(s, events).reported[i].verdict == Completed && ListingsFull(s, events)
    ensures var d := Run(s, events).reported[i].dispatch;
            && m in RunMoments(s, events) && |m.before.reported| <= i < |m.after.reported|
            && m.after.reported[i] == Callback(d, Completed)
            && (WrittenInPlace(m, d) || (Succeeded(m, d) && AtDestination(m.before, m.after, d)))
  {
    hide Run, RunMoments, Tried;
    m := CompletedMeansDelivered(s, events, i);
  }

  // ---- What the renderer wrote ----

  /** The files last seen in a directory, with what is written to it in this moment. */
  function Noted(m: Moment, dir: Dir, files: Files): Files {
    if m.doing.Writing? && m.doing.dir == dir then files + m.doing.files else files
  }

  /** What a directory holds after these moments if nobody takes anything away. */
  function Ledger(ms: seq<Moment>, dir: Dir, files: Files): Files
    decreases |ms|
  {
    if ms == [] then files else Ledger(ms[1..], dir, Noted(ms[0], dir, files))
  }

  ghost predicate Has(s: State, dir: Dir, files: Files) {
    forall n :: n in files ==> n in FilesIn(s, dir) && FilesIn(s, dir)[n] == files[n]
  }

  /** A successful delivery out of the directory clears it and does not leave all of these files behind. */
  ghost predicate Loses(m: Moment, dir: Dir, files: Files) {
    && Tried(m).Some? && StagingOf(Tried(m).value.dispatch) == dir
    && Delivers(m.before, Tried(m).value.dispatch, Tried(m).value.attempt)
    && !(files.Keys <= Tried(m).value.attempt.leftover)
  }

  /** The moment changes files only by its delivery attempt, or by what is written in it. */
  ghost predicate FilesFit(m: Moment) {
    match Tried(m)
    case Some(Trial(d, a)) => m.after.disk == Delivering(m.before, d, a).disk
    case None => if m.doing.Writing? then m.after.disk == m.before.disk[m.doing.dir := FilesIn(m.before, m.doing.dir) + m.doing.files]
                 else m.after.disk == m.before.disk
  }

  lemma DequeueKeepsFiles(s: State, now: int, w: World)
    ensures Dequeued(s, now, w).disk == s.disk
  {
    hide Watched;
    WatchedKeepsFiles(s, now, w);
    if s.queue != [] { WatchedKeepsFiles(Started(s.(queue := s.queue[1..]), s.queue[0], w.stagingMade), now, w); }
  }

  lemma WatchedKeepsFiles(s: State, now: int, w: World)
    ensures Watched(s, now, w).disk == s.disk
  {
  }

  lemma {:induction false} RetriesFit(s: State, todo: seq<Held>, kept: seq<Held>, now: int, attempts: seq<Attempt>)
    requires |attempts| == |todo|
    ensures forall m :: m in RetryMoments(s, todo, kept, now, attempts) ==> FilesFit(m)
    decreases |todo|
  {
    hide Delivering, Delivers;
    if todo != [] {
      var (s', h) := Retried(s, todo[0], now, attempts[0]);
      assert FilesFit(Moment(s, s', Retrying(todo[0], now, attempts[0])));
      RetriesFit(s', todo[1..], if h.Some? then kept + [h.value] else kept, now, attempts[1..]);
    }
  }

  lemma MomentsFit(s: State, e: Event)
    requires Fits(s, e)
    ensures forall m :: m in Moments(s, e) ==> FilesFit(m)
  {
    hide RetryAll, RetryMoments, Dequeued, Delivering, Delivers;
    if e.Update? {
      RetriesFit(s, s.held, [], e.now, e.world.attempts);
      DequeueKeepsFiles(RetryAll(s, s.held, [], e.now, e.world.attempts), e.now, e.world);
    }
  }

  lemma {:induction false} RunMomentsFit(s: State, events: seq<Event>)
    requires AllFit(s, events)
    ensures forall m :: m in RunMoments(s, events) ==> FilesFit(m)
    decreases |events|
  {
    hide Next, Moments, FilesFit;
    if events != [] {
      MomentsFit(s, events[0]);
      RunMomentsFit(Next(s, events[0]), events[1..]);
    }
  }

  /** In one moment, a staging directory keeps what was written to it exactly when no delivery clears it. */
  lemma StagingKept(m: Moment, dir: Dir, files: Files)
    requires FilesFit(m) && dir.Staging? && Has(m.before, dir, files)
    ensures Has(m.after, dir, Noted(m, dir, files)) <==> !Loses(m, dir, files)
  {
    match Tried(m)
    case Some(Trial(d, a)) =>
      assert FilesIn(m.after, dir) == if StagingOf(d) == dir then LeftStaged(FilesIn(m.before, dir), a) else FilesIn(m.before, dir);
      if Loses(m, dir, files) {
        var n :| n in files && n !in a.leftover;
        assert n !in FilesIn(m.after, dir);
      }
    case None =>
  }

  lemma {:induction false} RunKeepsStaging(s: State, ms: seq<Moment>, s': State, dir: Dir, files: Files)
    requires Leads(s, ms, s') && (forall m :: m in ms ==> FilesFit(m)) && dir.Staging? && Has(s, dir, files)
    requires forall j :: 0 <= j < |ms| ==> !Loses(ms[j], dir, Ledger(ms[..j], dir, files))
    ensures Has(s', dir, Ledger(ms, dir, files))
    decreases |ms|
  {
    hide FilesFit, Loses, Has, Noted;
    if ms != [] {
      var rest, noted := ms[1..], Noted(ms[0], dir, files);
      assert ms[..0] == [];
      StagingKept(ms[0], dir, files);
      forall j | 0 <= j < |rest|
        ensures !Loses(rest[j], dir, Ledger(rest[..j], dir, noted))
      {
        assert ms[..j + 1][1..] == rest[..j];
        assert !Loses(ms[j + 1], dir, Ledger(ms[..j + 1], dir, files));
      }
      RunKeepsStaging(ms[0].after, rest, s', dir, noted);
    }
  }

  lemma {:induction false} LeadsUpTo(s: State, ms: seq<Moment>, s': State, k: nat)
    requires Leads(s, ms, s') && k < |ms|
    ensures Leads(s, ms[..k], ms[k].before)
    decreases |ms|
  {
    if k > 0 {
      assert ms[..k][1..] == ms[1..][..k - 1];
      LeadsUpTo(ms[0].after, ms[1..], s', k - 1);
    }
  }

  /** Over every run: when a staged chunk is reported completed and its listing was full, all that was in
      its staging directory at the start and all that has been written there since is at its destination,
      unless some delivery before cleared the directory of it. */
  lemma WrittenFramesArrive(s: State, events: seq<Event>, i: nat) returns (k: nat)
    requires AllFit(s, events) && |s.reported| <= i < |Run(s, events).reported|
    requires Run(s, events).reported[i].verdict == Completed && ListingsFull(s, events)
    ensures var ms := RunMoments(s, events); var d := Run(s, events).reported[i].dispatch; var dir := StagingOf(d);
            && k < |ms| && |ms[k].before.reported| <= i < |ms[k].after.reported| && ms[k].after.reported[i] == Callback(d, Completed)
            && (|| WrittenInPlace(ms[k], d)
                || (exists j :: 0 <= j < k && Loses(ms[j], dir, Ledger(ms[..j], dir, FilesIn(s, dir))))
                || Has(ms[k].after, OutputOf(d), Ledger(ms[..k], dir, FilesIn(s, dir))))
  {
    hide Run, RunMoments, Tried, FilesFit, Loses, DeliveredIn, Honest;
    var ms, d := RunMoments(s, events), Run(s, events).reported[i].dispatch;
    var dir := StagingOf(d);
    RunMomentsLead(s, events);
    RunMomentsAreHonest(s, events);
    RunMomentsFit(s, events);
    k := CallbackHasMoment(s, ms, Run(s, events), i);
    HonestCompletion(ms[k], i);
    LeadsUpTo(s, ms, Run(s, events), k);
    if !WrittenInPlace(ms[k], d) && !exists j :: 0 <= j < k && Loses(ms[j], dir, Ledger(ms[..j], dir, FilesIn(s, dir))) {
      forall j | 0 <= j < |ms[..k]|
        ensures !Loses(ms[..k][j], dir, Ledger(ms[..k][..j], dir, FilesIn(s, dir)))
      {
        assert ms[..k][..j] == ms[..j];
      }
      RunKeepsStaging(s, ms[..k], ms[k].before, dir, FilesIn(s, dir));
      assert ms[k] in ms;
      FullDelivery(ms[k], d, Ledger(ms[..k], dir, FilesIn(s, dir)));
    }
  }

  lemma HonestCompletion(m: Moment, i: nat)
    requires Honest(m) && |m.before.reported| <= i < |m.after.reported| && m.after.reported[i].verdict == Completed
    ensures DeliveredIn(m, m.after.reported[i].dispatch)
  {
  }

  lemma FullDelivery(m: Moment, d: Dispatch, files: Files)
    requires DeliveredIn(m, d) && !WrittenInPlace(m, d) && ListingFull(m) && Has(m.before, StagingOf(d), files)
    ensures Has(m.after, OutputOf(d), files)
  {
  }

  // ---- Two dispatches in one staging directory ----

  const SHARED_RANGE := Range(1, 1)
  const SHARED := Staging("job", SHARED_RANGE)
  const HELD_ONE := Dispatch(0, "job", SHARED_RANGE, 0, Some("a"))
  const NEW_ONE := Dispatch(1, "job", SHARED_RANGE, 1, Some("b"))
  const OFFLINE := Attempt(false, {}, {}, {})
  const READY := World(true, true, true, true, true, [])
  const NEW_FRAME: Files := map["frame" := "new"]

  /** The chunk is rendered and cannot be delivered; it is rendered again for another output directory; then
      the first delivery is retried, and then the second render ends. */
  const BEFORE_RETRY := [
    SetStaging(true),
    Queue("job", SHARED_RANGE, 0, Some("a")),
    Update(0, READY),
    AgentCompleted(0, OFFLINE),
    Queue("job", SHARED_RANGE, 1, Some("b")),
    Update(0, READY.(attempts := [OFFLINE]))]

  const FROM_WRITE := [
    Write(SHARED, NEW_FRAME),
    Update(30000, READY.(attempts := [Attempt(true, {"frame"}, {}, {})])),
    AgentCompleted(30000, Attempt(true, {}, {}, {}))]

  const RENDERING_ANEW :=
    INITIAL.(staging := true, active := Some(Active(NEW_ONE, true)), held := [Held(HELD_ONE, 0, 0, 0)],
             accepted := [HELD_ONE, NEW_ONE], disk := map[Output("a") := map[], SHARED := map[]])

  const NEW_WRITTEN := RENDERING_ANEW.(disk := map[Output("a") := map[], SHARED := NEW_FRAME])

  const NEW_TAKEN :=
    RENDERING_ANEW.(held := [], reported := [Callback(HELD_ONE, Completed)], disk := map[Output("a") := NEW_FRAME, SHARED := map[]])

  const NEW_LOST :=
    NEW_TAKEN.(active := None, reported := [Callback(HELD_ONE, Completed), Callback(NEW_ONE, Completed)],
               disk := map[Output("a") := NEW_FRAME, SHARED := map[], Output("b") := map[]])

  lemma WriteMoment()
    ensures Next(RENDERING_ANEW, FROM_WRITE[0]) == NEW_WRITTEN
    ensures forall m :: m in Moments(RENDERING_ANEW, FROM_WRITE[0]) ==> ListingFull(m)
  {
    var none: Files := map[];
    assert none + NEW_FRAME == NEW_FRAME;
    assert RENDERING_ANEW.disk[SHARED := NEW_FRAME] == NEW_WRITTEN.disk;
  }

  lemma RetryMoment()
    ensures Fits(NEW_WRITTEN, FROM_WRITE[1]) && Next(NEW_WRITTEN, FROM_WRITE[1]) == NEW_TAKEN
    ensures forall m :: m in Moments(NEW_WRITTEN, FROM_WRITE[1]) ==> ListingFull(m)
  {
    var e := FROM_WRITE[1];
    var a, h := e.world.attempts[0], Held(HELD_ONE, 0, 0, 0);
    var s1 := NEW_TAKEN.(held := [h]);
    RetryTakes(a);
    LoneRetry(NEW_WRITTEN, h, e.now, a);
    assert Watched(NEW_TAKEN, e.now, e.world) == NEW_TAKEN;
  }

  lemma RetryTakes(a: Attempt)
    requires a == Attempt(true, {"frame"}, {}, {})
    ensures Retried(NEW_WRITTEN, Held(HELD_ONE, 0, 0, 0), 30000, a) == (NEW_TAKEN.(held := [Held(HELD_ONE, 0, 0, 0)]), None)
  {
    var none: Files := map[];
    assert Only(NEW_FRAME, a.listed - a.failing) == NEW_FRAME && Only(NEW_FRAME, a.leftover) == none;
    assert FilesIn(NEW_WRITTEN, SHARED) == NEW_FRAME && FilesIn(NEW_WRITTEN, Output("a")) == none;
    assert Copied(NEW_FRAME, none, a) == NEW_FRAME && LeftStaged(NEW_FRAME, a) == none;
    assert Delivering(NEW_WRITTEN, HELD_ONE, a).disk == NEW_TAKEN.disk;
    assert Delivers(NEW_WRITTEN, HELD_ONE, a) && [] + [Callback(HELD_ONE, Completed)] == [Callback(HELD_ONE, Completed)];
  }

  /** An update with one chunk held, whose retry settles it. */
  lemma LoneRetry(s: State, h: Held, now: int, a: Attempt)
    requires s.held == [h] && Retried(s, h, now, a).1.None?
    ensures var s1 := Retried(s, h, now, a).0;
            && RetryAll(s, [h], [], now, [a]) == s1.(held := [])
            && RetryMoments(s, [h], [], now, [a]) == [Moment(s, s1, Retrying(h, now, a)), Moment(s1, s1.(held := []), Otherwise)]
  {
    hide Retried;
    var s1 := Retried(s, h, now, a).0;
    assert RetryAll(s1, [], [], now, []) == s1.(held := []);
    assert RetryMoments(s1, [], [], now, []) == [Moment(s1, s1.(held := []), Otherwise)];
    assert [h][1..] == [] && [a][1..] == [];
  }

  lemma LastMoment()
    ensures Next(NEW_TAKEN, FROM_WRITE[2]) == NEW_LOST
    ensures forall m :: m in Moments(NEW_TAKEN, FROM_WRITE[2]) ==> ListingFull(m)
  {
    var a := FROM_WRITE[2].attempt;
    assert Delivering(NEW_TAKEN, NEW_ONE, a).disk == NEW_LOST.disk;
  }

  const FIRST_QUEUED := INITIAL.(staging := true, queue := [HELD_ONE], accepted := [HELD_ONE])
  const FIRST_RENDERS := FIRST_QUEUED.(queue := [], active := Some(Active(HELD_ONE, true)))
  const FIRST_HELD :=
    FIRST_RENDERS.(active := None, held := [Held(HELD_ONE, 0, 0, 0)], disk := map[Output("a") := map[], SHARED := map[]])
  const NEW_QUEUED := FIRST_HELD.(queue := [NEW_ONE], accepted := [HELD_ONE, NEW_ONE])

  lemma FirstBegins()
    ensures Next(FIRST_QUEUED, BEFORE_RETRY[2]) == FIRST_RENDERS
  {
    assert RetryAll(FIRST_QUEUED, [], [], 0, []) == FIRST_QUEUED;
    assert FIRST_QUEUED.queue[1..] == [];
  }

  lemma FirstIsHeld()
    ensures Next(FIRST_RENDERS, BEFORE_RETRY[3]) == FIRST_HELD
  {
    assert Delivering(FIRST_RENDERS, HELD_ONE, OFFLINE).disk == FIRST_HELD.disk;
  }

  lemma NewBegins()
    ensures Fits(NEW_QUEUED, BEFORE_RETRY[5]) && Next(NEW_QUEUED, BEFORE_RETRY[5]) == RENDERING_ANEW
  {
    var h := Held(HELD_ONE, 0, 0, 0);
    assert Retried(NEW_QUEUED, h, 0, OFFLINE) == (NEW_QUEUED, Some(h));
    assert [h][1..] == [] && [OFFLINE][1..] == [];
    assert RetryAll(NEW_QUEUED, [], [h], 0, []) == NEW_QUEUED;
    assert RetryAll(NEW_QUEUED, [h], [], 0, [OFFLINE]) == NEW_QUEUED;
    assert NEW_QUEUED.queue[1..] == [];
  }

  lemma RendersAnew()
    ensures AllFit(INITIAL, BEFORE_RETRY) && Run(INITIAL, BEFORE_RETRY) == RENDERING_ANEW
  {
    hide Run, AllFit, RunMoments, Moments, Dequeued, Finished, RetryAll;
    var e := BEFORE_RETRY;
    NoEvent(RENDERING_ANEW);
    NewBegins();
    OneEvent(NEW_QUEUED, e[5..]);
    assert Next(FIRST_HELD, e[4]) == NEW_QUEUED && e[4..][1..] == e[5..];
    OneEvent(FIRST_HELD, e[4..]);
    FirstIsHeld();
    assert e[3..][1..] == e[4..];
    OneEvent(FIRST_RENDERS, e[3..]);
    FirstBegins();
    assert e[2..][1..] == e[3..];
    OneEvent(FIRST_QUEUED, e[2..]);
    assert Next(INITIAL.(staging := true), e[1]) == FIRST_QUEUED && e[1..][1..] == e[2..];
    OneEvent(INITIAL.(staging := true), e[1..]);
    OneEvent(INITIAL, e);
  }

  lemma NoEvent(s: State)
    ensures AllFit(s, []) && Run(s, []) == s && RunMoments(s, []) == []
  {
  }

  lemma OneEvent(s: State, events: seq<Event>)
    requires events != [] && Fits(s, events[0]) && AllFit(Next(s, events[0]), events[1..])
    ensures AllFit(s, events) && Run(s, events) == Run(Next(s, events[0]), events[1..])
    ensures RunMoments(s, events) == Moments(s, events[0]) + RunMoments(Next(s, events[0]), events[1..])
  {
  }

  /** The exception is real. A run from the start in which no listing comes back short, and a chunk is
      reported completed although a frame of it, written after the render began, is not at its destination:
      the late delivery of an earlier dispatch of the same chunk has taken it to the old one. */
  lemma SharedStagingLoses()
    ensures AllFit(INITIAL, BEFORE_RETRY) && Run(INITIAL, BEFORE_RETRY).active == Some(Active(NEW_ONE, true))
    ensures var s := Run(INITIAL, BEFORE_RETRY);
            && AllFit(s, FROM_WRITE) && ListingsFull(s, FROM_WRITE)
            && var s' := Run(s, FROM_WRITE);
            && s'.reported == [Callback(HELD_ONE, Completed), Callback(NEW_ONE, Completed)]
            && Has(s', OutputOf(HELD_ONE), NEW_FRAME) && !Has(s', OutputOf(NEW_ONE), NEW_FRAME)
  {
    hide Run, AllFit, RunMoments, Moments, Dequeued, Finished, RetryAll, ListingFull;
    var e := FROM_WRITE;
    RendersAnew();
    NoEvent(NEW_LOST);
    LastMoment();
    OneEvent(NEW_TAKEN, e[2..]);
    RetryMoment();
    OneEvent(NEW_WRITTEN, e[1..]);
    WriteMoment();
    OneEvent(RENDERING_ANEW, e);
    assert "frame" in NEW_FRAME;
  }

  // ---- Bounded retries ----

  /** Retries come at least a retry period apart, and the chunk has not timed out. */
  ghost predicate Paced(h: Held) {
    && h.last - h.first >= h.tries * DELIVERY_RETRY_S * 1000
    && h.last - h.first < DELIVERY_TIMEOUT_S * 1000
  }

  ghost predicate AllPaced(hs: seq<Held>) { forall i :: 0 <= i < |hs| ==> Paced(hs[i]) }

  /** At most 19 retries can have failed while a chunk is held, so the twentieth settles it. */
  lemma HeldTries(h: Held)
    requires Paced(h)
    ensures h.tries < DELIVERY_TIMEOUT_S / DELIVERY_RETRY_S
  {
  }

  lemma RetriedPaced(s: State, h: Held, now: int, a: Attempt)
    requires Paced(h)
    ensures var (_, k) := Retried(s, h, now, a); k.Some? ==> Paced(k.value)
  {
  }

  lemma {:induction false} RetryAllPaced(s: State, todo: seq<Held>, kept: seq<Held>, now: int, attempts: seq<Attempt>)
    requires |attempts| == |todo| && AllPaced(todo) && AllPaced(kept)
    ensures AllPaced(RetryAll(s, todo, kept, now, attempts).held)
    decreases |todo|
  {
    if todo != [] {
      var (s', k) := Retried(s, todo[0], now, attempts[0]);
      RetriedPaced(s, todo[0], now, attempts[0]);
      RetryAllPaced(s', todo[1..], if k.Some? then kept + [k.value] else kept, now, attempts[1..]);
    }
  }

  lemma RetryAllUnfolds(s: State, todo: seq<Held>, kept: seq<Held>, now: int, attempts: seq<Attempt>)
    requires |attempts| == |todo|
    ensures RetryAll(s, todo, kept, now, attempts) ==
            if todo == [] then s.(held := kept) else
              var (s', h) := Retried(s, todo[0], now, attempts[0]);
              RetryAll(s', todo[1..], if h.Some? then kept + [h.value] else kept, now, attempts[1..])
  {
  }

  lemma DequeuedKeepsHeld(s: State, now: int, w: World)
    ensures Dequeued(s, now, w).held == s.held
  {
    hide Watched;
    WatchedKeepsHeld(s, now, w);
    if s.queue != [] { WatchedKeepsHeld(Started(s.(queue := s.queue[1..]), s.queue[0], w.stagingMade), now, w); }
  }

  lemma WatchedKeepsHeld(s: State, now: int, w: World)
    ensures Watched(s, now, w).held == s.held
  {
  }

  lemma StepPaced(s: State, e: Event)
    requires AllPaced(s.held) && Fits(s, e)
    ensures AllPaced(Next(s, e).held)
  {
    match e {
      case Update(now, w) =>
        RetryAllPaced(s, s.held, [], now, w.attempts);
        DequeuedKeepsHeld(RetryAll(s, s.held, [], now, w.attempts), now, w);
      case _ =>
    }
  }

  /** Over any run, no chunk is held through more than 19 failed retries. */
  lemma {:induction false} RunBoundsTries(s: State, events: seq<Event>)
    requires AllPaced(s.held) && AllFit(s, events)
    ensures AllPaced(Run(s, events).held)
    ensures forall h :: h in Run(s, events).held ==> h.tries < 20
    decreases |events|
  {
    if events == [] {
      forall h | h in s.held
        ensures h.tries < 20
      {
        HeldTries(h);
      }
    } else {
      StepPaced(s, events[0]);
      RunBoundsTries(Next(s, events[0]), events[1..]);
    }
  }

  // ---- The object ----

  class Coordinator {
    var queue: seq<Dispatch>
    var active: Option<Active>
    var held: seq<Held>
    var deleted: set<JobId>
    var stopped: bool
    var staging: bool
    var requeuing: bool
    var requeueStart: int
    var lastRequeue: int
    var grace: bool
    var graceStart: int
    var disk: map<Dir, Files>
    var nextTicket: nat
    var reported: seq<Callback>
    ghost var accepted: seq<Dispatch>
    ghost var dropped: seq<Dispatch>

    ghost function View(): State
      reads this
    {
      State(queue, active, held, deleted, stopped, staging, requeuing, requeueStart, lastRequeue, grace, graceStart,
            disk, accepted, reported, dropped)
    }

    ghost predicate Valid()
      reads this
    {
      nextTicket == |accepted|
    }

    constructor ()
      ensures Valid() && View() == INITIAL
    {
      queue, active, held, deleted := [], None, [], {};
      stopped, staging := false, false;
      requeuing, requeueStart, lastRequeue, grace, graceStart := false, 0, 0, false, 0;
      disk, nextTicket, reported, accepted, dropped := map[], 0, [], [], [];
    }

    method QueueDispatch(job: JobId, range: Range, epoch: int, outputDir: Option<string>)
      requires Valid()
      modifies this
      ensures Valid() && View() == Next(old(View()), Queue(job, range, epoch, outputDir))
    {
      var d := Dispatch(nextTicket, job, range, epoch, outputDir);
      nextTicket := nextTicket + 1;
      queue := queue + [d];
      accepted := accepted + [d];
    }

    /** The completion callback. */
    method Report(d: Dispatch, v: Verdict)
      modifies this`reported
      ensures View() == Reporting(old(View()), d, v)
    {
      reported := reported + [Callback(d, v)];
    }

    method DeliverStagedFiles(d: Dispatch, a: Attempt) returns (ok: bool)
      modifies this`disk
      ensures ok == Delivers(old(View()), d, a) && View() == Delivering(old(View()), d, a)
    {
      var staged := if StagingOf(d) in disk then disk[StagingOf(d)] else map[];
      var dest := if OutputOf(d) in disk then disk[OutputOf(d)] else map[];
      var copied;
      ok, copied := CopyStagingFiles(staged, dest, a);
      disk := disk[OutputOf(d) := copied][StagingOf(d) := if ok then Only(staged, a.leftover) else staged];
    }

    /** Walk the held chunks, erasing those that are settled. */
    method UpdatePendingDeliveries(now: int, attempts: seq<Attempt>)
      requires |attempts| == |held|
      modifies this
      ensures nextTicket == old(nextTicket) && View() == RetryAll(old(View()), old(held), [], now, attempts)
    {
      hide Retried, RetryAll;
      ghost var was := View();
      var todo := held;
      var kept: seq<Held> := [];
      var i := 0;
      while i < |todo|
        invariant 0 <= i <= |todo|
        invariant nextTicket == old(nextTicket) && held == todo
        invariant RetryAll(was, todo, [], now, attempts) == RetryAll(View(), todo[i..], kept, now, attempts[i..])
      {
        assert todo[i..][0] == todo[i] && todo[i..][1..] == todo[i + 1..];
        assert attempts[i..][0] == attempts[i] && attempts[i..][1..] == attempts[i + 1..];
        RetryAllUnfolds(View(), todo[i..], kept, now, attempts[i..]);
        var h := RetryOne(todo[i], now, attempts[i]);
        if h.Some? {
          kept := kept + [h.value];
        }
        i := i + 1;
      }
      RetryAllUnfolds(View(), [], kept, now, []);
      held := kept;
    }

    method RetryOne(h: Held, now: int, a: Attempt) returns (still: Option<Held>)
      modifies this
      ensures nextTicket == old(nextTicket) && held == old(held) && (View(), still) == Retried(old(View()), h, now, a)
    {
      if h.dispatch.job in deleted {
        dropped := dropped + [h.dispatch];
        return None;
      }
      if (now - h.last) / 1000 < DELIVERY_RETRY_S {
        return Some(h);
      }
      var ok := DeliverStagedFiles(h.dispatch, a);
      if ok {
        Report(h.dispatch, Completed);
        return None;
      }
      if (now - h.first) / 1000 >= DELIVERY_TIMEOUT_S {
        Report(h.dispatch, Failed);
        return None;
      }
      return Some(h.(last := now, tries := h.tries + 1));
    }

    method Tick(now: int, w: World)
      requires Valid() && |w.attempts| == |held|
      modifies this
      ensures Valid() && View() == Next(old(View()), Update(now, w))
    {
      AcceptedGrows(View(), Update(now, w));
      UpdatePendingDeliveries(now, w.attempts);
      Dequeue(now, w);
    }

    method Dequeue(now: int, w: World)
      modifies this
      ensures nextTicket == old(nextTicket) && View() == Dequeued(old(View()), now, w)
    {
      if active.Some? {
        WatchAgent(now, w);
        return;
      }
      if requeuing && now - lastRequeue < REQUEUE_PERIOD_MS {
        return;
      }
      if queue != [] {
        var d := queue[0];
        queue := queue[1..];
        BeginOrWait(d, now, w);
      }
    }

    method BeginOrWait(d: Dispatch, now: int, w: World)
      modifies this
      ensures nextTicket == old(nextTicket) && View() == Begun(old(View()), d, now, w)
    {
      if stopped {
        Report(d, Abandoned);
      } else if !w.connected {
        WaitForAgent(d, now, w.spawned);
      } else {
        requeuing, grace := false, false;
        active := Some(Active(d, staging && d.outputDir.Some? && d.outputDir.value != "" && w.stagingMade));
        WatchAgent(now, w);
      }
    }

    method WaitForAgent(d: Dispatch, now: int, spawned: bool)
      modifies this
      ensures nextTicket == old(nextTicket) && View() == Waiting(old(View()), d, now, spawned)
    {
      if !requeuing {
        requeuing, requeueStart, lastRequeue := true, now, now;
        if !spawned {
          requeuing := false;
          Report(d, Failed);
          return;
        }
      }
      if (now - requeueStart) / 1000 >= CONNECT_TIMEOUT_S {
        requeuing := false;
        Report(d, Failed);
        return;
      }
      lastRequeue := now;
      queue := queue + [d];
    }

    method WatchAgent(now: int, w: World)
      modifies this
      ensures nextTicket == old(nextTicket) && View() == Watched(old(View()), now, w)
    {
      if active.None? {
        return;
      }
      if !w.stillConnected && !grace {
        grace, graceStart := true, now;
      }
      if grace {
        if w.stillConnected {
          grace := false;
        } else if !w.processAlive || (now - graceStart) / 1000 >= DISCONNECT_GRACE_S {
          FailChunk();
        }
      }
    }

    method FailChunk()
      modifies this
      ensures nextTicket == old(nextTicket) && View() == FailActive(old(View()))
    {
      if active.None? {
        return;
      }
      grace := false;
      var d := active.value.dispatch;
      active := None;
      Report(d, Failed);
    }

    method OnChunkCompleted(now: int, a: Attempt)
      requires Valid()
      modifies this
      ensures Valid() && View() == Next(old(View()), AgentCompleted(now, a))
    {
      if active.None? {
        return;
      }
      var d, staged := active.value.dispatch, active.value.staged;
      if staged {
        var ok := DeliverStagedFiles(d, a);
        if !ok {
          held := held + [Held(d, now, now, 0)];
          active := None;
          return;
        }
      }
      active := None;
      Report(d, Completed);
    }

    method OnChunkFailed()
      requires Valid()
      modifies this
      ensures Valid() && View() == Next(old(View()), AgentFailed)
    {
      FailChunk();
    }

    method AbortCurrentRender()
      requires Valid()
      modifies this
      ensures Valid() && View() == Next(old(View()), Abort)
    {
      FailChunk();
    }

    method AbandonCurrentRender()
      requires Valid()
      modifies this
      ensures Valid() && View() == Next(old(View()), Abandon)
    {
      if active.None? {
        return;
      }
      var d := active.value.dispatch;
      grace := false;
      active := None;
      Report(d, Abandoned);
    }

    method PurgeJob(job: JobId)
      requires Valid()
      modifies this`queue, this`dropped
      ensures Valid() && View() == Next(old(View()), Purge(job))
    {
      ghost var gone := OfJob(queue, job);
      queue := KeepOthers(queue, job);
      dropped := dropped + gone;
    }

    method KeepOthers(all: seq<Dispatch>, job: JobId) returns (keep: seq<Dispatch>)
      ensures keep == NotOfJob(all, job)
    {
      var rest := all;
      keep := [];
      while rest != []
        invariant keep + NotOfJob(rest, job) == NotOfJob(all, job)
        decreases |rest|
      {
        var item := rest[0];
        if item.job != job {
          keep := keep + [item];
        }
        rest := rest[1..];
      }
    }

    method MarkJobDeleted(job: JobId)
      requires Valid()
      modifies this`deleted
      ensures Valid() && View() == Next(old(View()), MarkDeleted(job))
    {
      deleted := deleted + {job};
    }
  }
}
