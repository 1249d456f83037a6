/** The farm as a whole: every node's render coordinator, the reports, and the leader's tables. A chunk
    that the tables call completed was delivered by some worker before. */
module RenderFarm {
  import opened Wrappers
  import opened ChunkPlan
  import opened FarmTables
  import opened TableInvariants
  import opened ExactlyOnce
  import Accounting
  import DispatchManager
  import R = ReportDelivery
  import Link = ReportLink
  import C = RenderCoordinator

  /** The events that each node's coordinator has gone through, and all that the leader sees of them. */
  datatype System = System(histories: map<NodeId, seq<C.Event>>, farm: R.Farm)

  datatype Act =
    | Work(node: NodeId, event: C.Event, leads: bool, at: int)    // something happens at a node, which may be the leader
    | Post(node: NodeId, outcomes: seq<Link.Outcome>)             // a worker posts what it has buffered
    | Drain(at: int)                                              // the leader applies what is queued
    | Lead(step: Step)                                            // anything else that the leader does

  function Start(t: Tables): System { System(map[], R.Start(t)) }

  function History(sys: System, node: NodeId): seq<C.Event> { if node in sys.histories then sys.histories[node] else [] }

  function ReportOf(node: NodeId, cb: C.Callback): Report {
    Report(node, cb.dispatch.job, cb.dispatch.range, cb.dispatch.epoch)
  }

  /** The node's word on one callback: the leader applies its own at once, a worker buffers it, and an
      abandoned render is reported to nobody. */
  function Told(f: R.Farm, node: NodeId, cb: C.Callback, leads: bool, at: int): R.Farm {
    var r := ReportOf(node, cb);
    match cb.verdict
    case Abandoned => f
    case Completed => R.Next(f, if leads then R.Other(Complete(r, at)) else R.Finish(node, R.Message(Completion, r)))
    case Failed => R.Next(f, if leads then R.Other(Fail(r)) else R.Finish(node, R.Message(Failure, r)))
  }

  function AllTold(f: R.Farm, node: NodeId, cbs: seq<C.Callback>, leads: bool, at: int): R.Farm
    decreases |cbs|
  {
    if cbs == [] then f else AllTold(Told(f, node, cbs[0], leads, at), node, cbs[1..], leads, at)
  }

  /** The callbacks of the last of these events. */
  ghost function NewCallbacks(before: seq<C.Event>, e: C.Event): seq<C.Callback>
    requires C.AllFit(C.INITIAL, before) && C.AllFit(C.INITIAL, before + [e])
  {
    var was, now := C.Run(C.INITIAL, before).reported, C.Run(C.INITIAL, before + [e]).reported;
    if |was| <= |now| then now[|was|..] else []
  }

  /** A `Complete` step is always somebody's report: the leader takes none on its own account. */
  ghost function Next(sys: System, act: Act): System {
    match act
    case Work(node, e, leads, at) =>
      var h := History(sys, node);
      if !(C.AllFit(C.INITIAL, h) && C.AllFit(C.INITIAL, h + [e])) then sys
      else System(sys.histories[node := h + [e]], AllTold(sys.farm, node, NewCallbacks(h, e), leads, at))
    case Post(node, outcomes) => sys.(farm := R.Next(sys.farm, R.Flush(node, outcomes)))
    case Drain(at) => sys.(farm := R.Next(sys.farm, R.Drain(at)))
    case Lead(step) => if step.Complete? then sys else sys.(farm := R.Next(sys.farm, R.Other(step)))
  }

  ghost function After(sys: System, acts: seq<Act>): System
    decreases |acts|
  {
    if acts == [] then sys else After(Next(sys, acts[0]), acts[1..])
  }

  // ---- Where completions come from ----

  predicate Tells(node: NodeId, cb: C.Callback, r: Report) { cb.verdict == C.Completed && ReportOf(node, cb) == r }

  /** A coordinator in this history has reported just that. */
  ghost predicate Rendered(h: seq<C.Event>, r: Report) {
    C.AllFit(C.INITIAL, h) && exists i :: 0 <= i < |C.Run(C.INITIAL, h).reported| && Tells(r.node, C.Run(C.INITIAL, h).reported[i], r)
  }

  ghost predicate Known(sys: System, r: Report) { Rendered(History(sys, r.node), r) }

  /** Every completion on its way to the tables, or applied to them, is a coordinator's. */
  ghost predicate Sourced(sys: System, f: R.Farm) {
    && (forall node, m :: node in f.buffers && m in f.buffers[node] && m.kind == Completion ==> Known(sys, m.report))
    && (forall r :: r in f.completions ==> Known(sys, r))
    && (forall s :: s in f.steps && s.Complete? ==> Known(sys, s.report))
  }

  ghost predicate Sound(sys: System) {
    && (forall node :: node in sys.histories ==> C.AllFit(C.INITIAL, sys.histories[node]))
    && Sourced(sys, sys.farm)
  }

  lemma {:induction false} EventsOneMore(s: C.State, h: seq<C.Event>, e: C.Event)
    requires C.AllFit(s, h)
    ensures C.AllFit(s, h + [e]) <==> C.Fits(C.Run(s, h), e)
    ensures C.AllFit(s, h + [e]) ==> C.Run(s, h + [e]) == C.Next(C.Run(s, h), e)
    decreases |h|
  {
    hide C.Next, C.Fits;
    if h == [] {
      assert h + [e] == [e] && [e][1..] == [];
    } else {
      assert (h + [e])[1..] == h[1..] + [e];
      EventsOneMore(C.Next(s, h[0]), h[1..], e);
    }
  }

  lemma CallbacksStay(h: seq<C.Event>, e: C.Event)
    requires C.AllFit(C.INITIAL, h) && C.AllFit(C.INITIAL, h + [e])
    ensures C.Run(C.INITIAL, h).reported <= C.Run(C.INITIAL, h + [e]).reported
  {
    hide C.Run, C.AllFit, C.Next, C.Moments, C.Honest;
    EventsOneMore(C.INITIAL, h, e);
    var s := C.Run(C.INITIAL, h);
    C.MomentsLead(s, e);
    C.MomentsAreHonest(s, e);
    C.OnlyAdded(s, C.Moments(s, e), C.Next(s, e));
  }

  lemma StillRendered(h: seq<C.Event>, e: C.Event, r: Report)
    requires Rendered(h, r) && C.AllFit(C.INITIAL, h + [e])
    ensures Rendered(h + [e], r)
  {
    hide C.Run, C.AllFit;
    CallbacksStay(h, e);
    var i :| 0 <= i < |C.Run(C.INITIAL, h).reported| && Tells(r.node, C.Run(C.INITIAL, h).reported[i], r);
    assert Tells(r.node, C.Run(C.INITIAL, h + [e]).reported[i], r);
  }

  lemma JustRendered(node: NodeId, h: seq<C.Event>, e: C.Event, cb: C.Callback)
    requires C.AllFit(C.INITIAL, h) && C.AllFit(C.INITIAL, h + [e])
    requires cb in NewCallbacks(h, e) && cb.verdict == C.Completed
    ensures Rendered(h + [e], ReportOf(node, cb))
  {
    hide C.Run, C.AllFit;
    var was, now := C.Run(C.INITIAL, h).reported, C.Run(C.INITIAL, h + [e]).reported;
    var j :| 0 <= j < |NewCallbacks(h, e)| && NewCallbacks(h, e)[j] == cb;
    assert now[|was| + j] == cb && Tells(node, now[|was| + j], ReportOf(node, cb));
  }

  lemma ToldIsSourced(sys: System, f: R.Farm, node: NodeId, cb: C.Callback, leads: bool, at: int)
    requires Sourced(sys, f) && (cb.verdict == C.Completed ==> Known(sys, ReportOf(node, cb)))
    ensures Sourced(sys, Told(f, node, cb, leads, at))
  {
    hide Known, Run;
  }

  lemma {:induction false} AllToldIsSourced(sys: System, f: R.Farm, node: NodeId, cbs: seq<C.Callback>, leads: bool, at: int)
    requires Sourced(sys, f) && forall cb :: cb in cbs && cb.verdict == C.Completed ==> Known(sys, ReportOf(node, cb))
    ensures Sourced(sys, AllTold(f, node, cbs, leads, at))
    decreases |cbs|
  {
    hide Known, Told, Sourced;
    if cbs != [] {
      ToldIsSourced(sys, f, node, cbs[0], leads, at);
      AllToldIsSourced(sys, Told(f, node, cbs[0], leads, at), node, cbs[1..], leads, at);
    }
  }

  lemma {:induction false} ReceivingIsSourced(sys: System, f: R.Farm, ms: seq<R.Message>)
    requires Sourced(sys, f) && forall m :: m in ms && m.kind == Completion ==> Known(sys, m.report)
    ensures Sourced(sys, R.ReceivedAll(f, ms))
    decreases |ms|
  {
    hide Known, AnyCurrent;
    if ms != [] {
      assert ms[0] in ms;
      ReceivingIsSourced(sys, R.Received(f, ms[0]), ms[1..]);
    }
  }

  lemma PostIsSourced(sys: System, f: R.Farm, node: NodeId, outcomes: seq<Link.Outcome>)
    requires Sourced(sys, f)
    ensures Sourced(sys, R.Next(f, R.Flush(node, outcomes)))
  {
    hide Known, R.ReceivedAll, Link.AnsweredPrefix;
    var batch := R.Buffer(f, node);
    if |outcomes| == |batch| {
      var rest := f.(buffers := f.buffers[node := batch[Link.AnsweredPrefix(outcomes)..]]);
      forall m | m in R.Arrivals(batch, outcomes)
        ensures m in batch
      {
      }
      ReceivingIsSourced(sys, rest, R.Arrivals(batch, outcomes));
    }
  }

  lemma DrainIsSourced(sys: System, f: R.Farm, at: int)
    requires Sourced(sys, f)
    ensures Sourced(sys, R.Next(f, R.Drain(at)))
  {
    hide Known, Run;
    forall s | s in R.Draining(f, at) && s.Complete?
      ensures s.report in f.completions
    {
    }
  }

  lemma WorkIsSound(sys: System, node: NodeId, e: C.Event, leads: bool, at: int)
    requires Sound(sys) && C.AllFit(C.INITIAL, History(sys, node)) && C.AllFit(C.INITIAL, History(sys, node) + [e])
    ensures Sound(Next(sys, Work(node, e, leads, at)))
  {
    hide C.AllFit, Rendered, NewCallbacks, AllTold;
    var h := History(sys, node);
    var sys' := sys.(histories := sys.histories[node := h + [e]]);
    forall r | Known(sys, r)
      ensures Known(sys', r)
    {
      if r.node == node { StillRendered(h, e, r); }
    }
    forall cb | cb in NewCallbacks(h, e) && cb.verdict == C.Completed
      ensures Known(sys', ReportOf(node, cb))
    {
      JustRendered(node, h, e, cb);
    }
    AllToldIsSourced(sys', sys.farm, node, NewCallbacks(h, e), leads, at);
    SourcedByHistories(sys', Next(sys, Work(node, e, leads, at)));
  }

  lemma SourcedByHistories(a: System, b: System)
    requires a.histories == b.histories && Sourced(a, b.farm)
    ensures Sourced(b, b.farm)
  {
    hide Rendered;
    assert forall r :: Known(a, r) <==> Known(b, r);
  }

  lemma ActIsSound(sys: System, act: Act)
    requires Sound(sys)
    ensures Sound(Next(sys, act))
  {
    hide C.AllFit, Sourced, R.Next, AllTold, NewCallbacks;
    var sys' := Next(sys, act);
    match act {
      case Work(node, e, leads, at) =>
        if C.AllFit(C.INITIAL, History(sys, node)) && C.AllFit(C.INITIAL, History(sys, node) + [e]) {
          WorkIsSound(sys, node, e, leads, at);
        }
      case Post(node, outcomes) =>
        PostIsSourced(sys, sys.farm, node, outcomes);
        SourcedByHistories(sys, sys');
      case Drain(at) =>
        DrainIsSourced(sys, sys.farm, at);
        SourcedByHistories(sys, sys');
      case Lead(step) =>
        if !step.Complete? {
          LeadIsSourced(sys, step);
          SourcedByHistories(sys, sys');
        }
    }
  }

  lemma LeadIsSourced(sys: System, step: Step)
    requires Sourced(sys, sys.farm) && !step.Complete?
    ensures Sourced(sys, R.Next(sys.farm, R.Other(step)))
  {
    hide Known, Run;
  }

  lemma {:induction false} ActsAreSound(sys: System, acts: seq<Act>)
    requires Sound(sys)
    ensures Sound(After(sys, acts))
    decreases |acts|
  {
    hide Sound, Next;
    if acts != [] {
      ActIsSound(sys, acts[0]);
      ActsAreSound(Next(sys, acts[0]), acts[1..]);
    }
  }

  // ---- Completed in the tables means delivered by a worker ----

  /** The node's coordinator reported the chunk completed, in a moment of its run that delivered it. */
  ghost predicate DeliveredBy(h: seq<C.Event>, r: Report, i: nat, m: C.Moment) {
    && C.AllFit(C.INITIAL, h) && i < |C.Run(C.INITIAL, h).reported|
    && var cb := C.Run(C.INITIAL, h).reported[i];
    && Tells(r.node, cb, r)
    && m in C.RunMoments(C.INITIAL, h)
    && |m.before.reported| <= i < |m.after.reported| && m.after.reported[i] == cb
    && C.DeliveredIn(m, cb.dispatch)
  }

  /** Over any acts of all nodes together: whenever the tables have been told of a completion, the
      coordinator of the reporting node has gone through a moment that delivered the frames of a dispatch
      with that job, range and epoch. */
  lemma CompletionWasDelivered(t: Tables, acts: seq<Act>, p: nat) returns (i: nat, m: C.Moment)
    requires var f := After(Start(t), acts).farm; p < |f.steps| && f.steps[p].Complete?
    ensures var sys := After(Start(t), acts); var r := sys.farm.steps[p].report;
            DeliveredBy(History(sys, r.node), r, i, m)
  {
    hide After, C.Run, C.AllFit, C.RunMoments, C.DeliveredIn;
    assert Sound(Start(t));
    ActsAreSound(Start(t), acts);
    var sys := After(Start(t), acts);
    var r := sys.farm.steps[p].report;
    var h := History(sys, r.node);
    assert sys.farm.steps[p] in sys.farm.steps && Rendered(h, r);
    i :| 0 <= i < |C.Run(C.INITIAL, h).reported| && Tells(r.node, C.Run(C.INITIAL, h).reported[i], r);
    m := C.CompletedMeansDelivered(C.INITIAL, h, i);
  }

  /** The step that made the row completed: a report for it, or its job's being copied from one in which the
      same range was completed already. */
  ghost predicate Completes(t: Tables, s: Step, c: Chunk) {
    || (s.Complete? && s.report.job == c.job && s.report.range == c.range)
    || (s.Resubmit? && s.job == c.job && DispatchManager.CompletedIn(t, s.source, c.range))
  }

  lemma StepCompletes(t: Tables, s: Step, id: ChunkId)
    requires Inv(t) && id in Apply(t, s).chunks && Apply(t, s).chunks[id].state == Completed
    ensures var c := Apply(t, s).chunks[id];
            || (id in t.chunks && t.chunks[id].state == Completed && t.chunks[id].job == c.job && t.chunks[id].range == c.range)
            || Completes(t, s, c)
  {
    hide Inv;
    if id in t.chunks {
      Accounting.RowAfter(t, s, id);
    } else if s.Resubmit? {
      CopyCompletes(t, s, id);
    }
  }

  lemma CopyCompletes(t: Tables, s: Step, id: ChunkId)
    requires s.Resubmit? && id in Apply(t, s).chunks && id !in t.chunks && Apply(t, s).chunks[id].state == Completed
    ensures Completes(t, s, Apply(t, s).chunks[id])
  {
    var rows := CopiedChunks(t, s.source, s.job, s.at);
    assert Apply(t, s).chunks[id] == NewRow(rows, t.nextChunk, id);
  }

  lemma {:induction false} SomeStepCompletes(t: Tables, steps: seq<Step>, id: ChunkId) returns (p: nat)
    requires Inv(t) && t.chunks == map[] && id in Run(t, steps).chunks && Run(t, steps).chunks[id].state == Completed
    ensures p < |steps| && Completes(Run(t, steps[..p]), steps[p], Run(t, steps).chunks[id])
    decreases |steps|
  {
    hide Inv, Apply, Completes;
    assert steps != [];
    var n := |steps| - 1;
    var before := Run(t, steps[..n]);
    assert steps == steps[..n] + [steps[n]];
    DispatchManager.RunSnoc(t, steps[..n], steps[n]);
    RunKeepsInv(t, steps[..n]);
    StepCompletes(before, steps[n], id);
    if Completes(before, steps[n], Apply(before, steps[n]).chunks[id]) {
      p := n;
    } else {
      p := SomeStepCompletes(t, steps[..n], id);
      assert steps[..n][..p] == steps[..p];
      SameRowCompletes(Run(t, steps[..p]), steps[p], before.chunks[id], Run(t, steps).chunks[id]);
    }
  }

  lemma SameRowCompletes(t: Tables, s: Step, a: Chunk, b: Chunk)
    requires Completes(t, s, a) && a.job == b.job && a.range == b.range
    ensures Completes(t, s, b)
  {
  }

  /** Behind every completed row there is a report, if need be through the job that it was copied from. */
  lemma {:induction false} SomeReportCompletes(t: Tables, steps: seq<Step>, id: ChunkId) returns (p: nat)
    requires Inv(t) && t.chunks == map[] && id in Run(t, steps).chunks && Run(t, steps).chunks[id].state == Completed
    ensures var c := Run(t, steps).chunks[id];
            && p < |steps| && steps[p].Complete? && steps[p].report.range == c.range
            && (steps[p].report.job == c.job || exists q :: p < q < |steps| && steps[q].Resubmit? && steps[q].job == c.job)
    decreases |steps|
  {
    hide Inv, Apply, Run;
    var q := SomeStepCompletes(t, steps, id);
    if steps[q].Complete? {
      p := q;
    } else {
      var before := Run(t, steps[..q]);
      var other :| other in before.chunks && before.chunks[other].job == steps[q].source
        && before.chunks[other].range == Run(t, steps).chunks[id].range && before.chunks[other].state == Completed;
      p := SomeReportCompletes(t, steps[..q], other);
      assert p < q < |steps| && steps[q].Resubmit?;
    }
  }

  /** Completed means delivered, for the farm: from the empty tables, over any acts of all nodes together,
      every chunk that the tables call completed was rendered by some node whose coordinator delivered a
      dispatch with its frame range - of its own job, unless that is a copy of another. */
  lemma CompletedChunkWasDelivered(acts: seq<Act>, id: ChunkId) returns (r: Report, i: nat, m: C.Moment)
    requires var t := After(Start(EMPTY), acts).farm.tables; id in t.chunks && t.chunks[id].state == Completed
    ensures var sys := After(Start(EMPTY), acts); var c := sys.farm.tables.chunks[id];
            && DeliveredBy(History(sys, r.node), r, i, m) && r.range == c.range
            && (r.job == c.job || exists s :: s in sys.farm.steps && s.Resubmit? && s.job == c.job)
  {
    hide After, DeliveredBy, Run, Inv;
    EmptyIsInv();
    TablesAreRun(EMPTY, acts);
    var sys := After(Start(EMPTY), acts);
    var p := SomeReportCompletes(EMPTY, sys.farm.steps, id);
    r := sys.farm.steps[p].report;
    i, m := CompletionWasDelivered(EMPTY, acts, p);
    if r.job != sys.farm.tables.chunks[id].job {
      var q :| p < q < |sys.farm.steps| && sys.farm.steps[q].Resubmit? && sys.farm.steps[q].job == sys.farm.tables.chunks[id].job;
      assert sys.farm.steps[q] in sys.farm.steps;
    }
  }

  // ---- The tables are what the steps lead to ----

  ghost predicate Driven(t: Tables, f: R.Farm) { f.tables == Run(t, f.steps) }

  lemma HappeningIsDriven(t: Tables, f: R.Farm, h: R.Happening)
    requires Driven(t, f)
    ensures Driven(t, R.Next(f, h))
  {
    hide Run;
    match h {
      case Finish(_, _) =>
      case Flush(node, outcomes) => R.FlushOnlyMoves(f, node, outcomes);
      case Drain(at) => RunConcat(t, f.steps, R.Draining(f, at));
      case Other(step) => RunConcat(t, f.steps, [step]);
    }
  }

  lemma {:induction false} AllToldIsDriven(t: Tables, f: R.Farm, node: NodeId, cbs: seq<C.Callback>, leads: bool, at: int)
    requires Driven(t, f)
    ensures Driven(t, AllTold(f, node, cbs, leads, at))
    decreases |cbs|
  {
    hide R.Next, Driven;
    if cbs != [] {
      var r := ReportOf(node, cbs[0]);
      if cbs[0].verdict == C.Completed {
        HappeningIsDriven(t, f, if leads then R.Other(Complete(r, at)) else R.Finish(node, R.Message(Completion, r)));
      } else if cbs[0].verdict == C.Failed {
        HappeningIsDriven(t, f, if leads then R.Other(Fail(r)) else R.Finish(node, R.Message(Failure, r)));
      }
      AllToldIsDriven(t, Told(f, node, cbs[0], leads, at), node, cbs[1..], leads, at);
    }
  }

  lemma {:induction false} ActsDrive(t: Tables, sys: System, acts: seq<Act>)
    requires Driven(t, sys.farm)
    ensures Driven(t, After(sys, acts).farm)
    decreases |acts|
  {
    hide R.Next, Driven, AllTold, NewCallbacks, C.AllFit;
    if acts != [] {
      match acts[0] {
        case Work(node, e, leads, at) =>
          var h := History(sys, node);
          if C.AllFit(C.INITIAL, h) && C.AllFit(C.INITIAL, h + [e]) {
            AllToldIsDriven(t, sys.farm, node, NewCallbacks(h, e), leads, at);
          }
        case Post(node, outcomes) => HappeningIsDriven(t, sys.farm, R.Flush(node, outcomes));
        case Drain(at) => HappeningIsDriven(t, sys.farm, R.Drain(at));
        case Lead(step) => HappeningIsDriven(t, sys.farm, R.Other(step));
      }
      ActsDrive(t, Next(sys, acts[0]), acts[1..]);
    }
  }

  lemma TablesAreRun(t: Tables, acts: seq<Act>)
    ensures var f := After(Start(t), acts).farm; f.tables == Run(t, f.steps)
  {
    hide After;
    assert Driven(t, Start(t).farm);
    ActsDrive(t, Start(t), acts);
  }
}
