/** Reports from end to end: the workers' buffers, the network, the leader's fence and queues, and the
    tables, as one system. What a worker reports takes effect, unless it is overtaken, and no more than
    once. */
module ReportDelivery {
  import opened FarmTables
  import opened TableInvariants
  import opened ExactlyOnce
  import DispatchManager
  import ReportLink

  datatype Message = Message(kind: Kind, report: Report)

  /** A report and the number of steps the tables had taken when it was made. */
  datatype Made = Made(node: NodeId, message: Message, since: nat)

  /** `steps` are all the steps that the tables have taken so far. */
  datatype Farm = Farm(
    tables: Tables,
    buffers: map<NodeId, seq<Message>>,
    completions: seq<Report>,
    failures: seq<Report>,
    steps: seq<Step>,
    made: seq<Made>)

  datatype Happening =
    | Finish(node: NodeId, message: Message)                        // a worker has something to report
    | Flush(node: NodeId, outcomes: seq<ReportLink.Outcome>)        // it posts what it has buffered
    | Drain(at: int)                                                // the leader applies what is queued
    | Other(step: Step)                                             // anything else that the leader does

  function Start(t: Tables): Farm { Farm(t, map[], [], [], [], []) }

  function Buffer(f: Farm, node: NodeId): seq<Message> { if node in f.buffers then f.buffers[node] else [] }

  /** The posts of a flush that reach the leader: those answered, and the first unanswered one if only its
      answer was lost. */
  function Arrivals(batch: seq<Message>, outcomes: seq<ReportLink.Outcome>): seq<Message>
    requires |outcomes| == |batch|
  {
    var k := ReportLink.AnsweredPrefix(outcomes);
    batch[..k] + if k < |outcomes| && ReportLink.Reached(outcomes[k]) then [batch[k]] else []
  }

  /** The leader's handler: a report that is not current is refused, any other is queued. */
  function Received(f: Farm, m: Message): Farm {
    if !AnyCurrent(f.tables, m.report) then f
    else if m.kind == Completion then f.(completions := f.completions + [m.report])
    else f.(failures := f.failures + [m.report])
  }

  function ReceivedAll(f: Farm, ms: seq<Message>): Farm
    decreases |ms|
  {
    if ms == [] then f else ReceivedAll(Received(f, ms[0]), ms[1..])
  }

  function Stepped(f: Farm, steps: seq<Step>): Farm {
    f.(tables := Run(f.tables, steps), steps := f.steps + steps)
  }

  function Draining(f: Farm, at: int): seq<Step> {
    DispatchManager.Completions(f.completions, at) + DispatchManager.Failures(f.failures)
  }

  function Next(f: Farm, h: Happening): Farm {
    match h
    case Finish(node, m) =>
      f.(buffers := f.buffers[node := Buffer(f, node) + [m]], made := f.made + [Made(node, m, |f.steps|)])
    case Flush(node, outcomes) =>
      var batch := Buffer(f, node);
      if |outcomes| != |batch| then f else
        ReceivedAll(f.(buffers := f.buffers[node := batch[ReportLink.AnsweredPrefix(outcomes)..]]), Arrivals(batch, outcomes))
    case Drain(at) => Stepped(f, Draining(f, at)).(completions := [], failures := [])
    case Other(step) => Stepped(f, [step])
  }

  function After(f: Farm, hs: seq<Happening>): Farm
    decreases |hs|
  {
    if hs == [] then f else After(Next(f, hs[0]), hs[1..])
  }

  /** The flush is the one of the delivery history that the worker's object is proved to perform. */
  lemma FlushIsLinkFlush(batch: seq<Message>, outcomes: seq<ReportLink.Outcome>)
    requires |outcomes| == |batch|
    ensures var l := ReportLink.Next(ReportLink.Link(batch, batch, []), ReportLink.Flush(outcomes));
            l.buffer == batch[ReportLink.AnsweredPrefix(outcomes)..] && l.received == Arrivals(batch, outcomes)
  {
    hide ReportLink.AnsweredPrefix;
    var k := ReportLink.AnsweredPrefix(outcomes);
    assert [] + batch[..k] == batch[..k];
  }

  // ---- Where a report is ----

  predicate Queued(f: Farm, m: Message) {
    if m.kind == Completion then m.report in f.completions else m.report in f.failures
  }

  /** A delivery of the report has taken effect since it was made. */
  ghost predicate TookEffect(t: Tables, steps: seq<Step>, since: nat, m: Message)
    requires since <= |steps|
  {
    Landings(Run(t, steps[..since]), steps[since..], m.report, m.kind) >= 1
  }

  /** There was a moment since it was made when no row took the report for current. */
  ghost predicate Overtaken(t: Tables, steps: seq<Step>, since: nat, m: Message)
    requires since <= |steps|
  {
    exists n :: since <= n <= |steps| && NotCurrentAt(t, steps, n, m.report)
  }

  ghost predicate NotCurrentAt(t: Tables, steps: seq<Step>, n: nat, r: Report)
    requires n <= |steps|
  {
    !AnyCurrent(Run(t, steps[..n]), r)
  }

  ghost predicate Accounted(t: Tables, f: Farm, a: Made) {
    && a.since <= |f.steps|
    && (|| a.message in Buffer(f, a.node)
        || Queued(f, a.message)
        || TookEffect(t, f.steps, a.since, a.message)
        || Overtaken(t, f.steps, a.since, a.message))
  }

  /** The tables are where their steps lead, and every report is accounted for. */
  ghost predicate Sound(t: Tables, f: Farm) {
    && f.tables == Run(t, f.steps)
    && forall a :: a in f.made ==> Accounted(t, f, a)
  }

  // ---- As steps are added ----

  lemma {:induction false} LandingsConcat(t: Tables, a: seq<Step>, b: seq<Step>, r: Report, kind: Kind)
    ensures Landings(t, a + b, r, kind) == Landings(t, a, r, kind) + Landings(Run(t, a), b, r, kind)
    decreases |a|
  {
    hide Apply, Lands;
    if a == [] {
      assert a + b == b;
    } else {
      assert (a + b)[1..] == a[1..] + b;
      LandingsConcat(Apply(t, a[0]), a[1..], b, r, kind);
    }
  }

  /** What has happened to a report stays so. */
  lemma StillSettled(t: Tables, steps: seq<Step>, more: seq<Step>, since: nat, m: Message)
    requires since <= |steps|
    ensures TookEffect(t, steps, since, m) ==> TookEffect(t, steps + more, since, m)
    ensures Overtaken(t, steps, since, m) ==> Overtaken(t, steps + more, since, m)
  {
    hide Run, Landings, AnyCurrent;
    var all := steps + more;
    assert all[..since] == steps[..since] && all[since..] == steps[since..] + more;
    LandingsConcat(Run(t, steps[..since]), steps[since..], more, m.report, m.kind);
    if n :| since <= n <= |steps| && NotCurrentAt(t, steps, n, m.report) {
      assert all[..n] == steps[..n];
      assert NotCurrentAt(t, all, n, m.report);
    }
  }

  /** A delivery either takes effect or finds the report overtaken. */
  lemma DeliveryDecides(t: Tables, steps: seq<Step>, since: nat, p: nat, m: Message)
    requires since <= p < |steps| && IsDelivery(steps[p], m.report, m.kind)
    ensures TookEffect(t, steps, since, m) || Overtaken(t, steps, since, m)
  {
    hide Run, AnyCurrent, Apply;
    if NotCurrentAt(t, steps, p, m.report) {
    } else {
      var start, before, rest := Run(t, steps[..since]), steps[since..p], steps[p..];
      assert steps[..p] == steps[..since] + before && steps[since..] == before + rest;
      RunConcat(t, steps[..since], before);
      LandingsConcat(start, before, rest, m.report, m.kind);
      assert rest[0] == steps[p];
    }
  }

  // ---- Every happening keeps the account ----

  lemma {:induction false} ReceivingOnlyQueues(f: Farm, ms: seq<Message>)
    ensures var f' := ReceivedAll(f, ms);
            && f'.tables == f.tables && f'.buffers == f.buffers && f'.steps == f.steps && f'.made == f.made
            && (forall m :: Queued(f, m) ==> Queued(f', m))
            && (forall m :: m in ms && AnyCurrent(f.tables, m.report) ==> Queued(f', m))
    decreases |ms|
  {
    hide AnyCurrent;
    if ms != [] {
      ReceivingOnlyQueues(Received(f, ms[0]), ms[1..]);
      assert ms == [ms[0]] + ms[1..];
    }
  }

  lemma FlushKeepsAccount(t: Tables, f: Farm, node: NodeId, outcomes: seq<ReportLink.Outcome>, a: Made)
    requires Sound(t, f) && a in f.made
    ensures Accounted(t, Next(f, Flush(node, outcomes)), a)
  {
    hide Run, TookEffect, AnyCurrent, Landings;
    var batch := Buffer(f, node);
    if |outcomes| == |batch| {
      var k := ReportLink.AnsweredPrefix(outcomes);
      var f1 := f.(buffers := f.buffers[node := batch[k..]]);
      ReceivingOnlyQueues(f1, Arrivals(batch, outcomes));
      if a.node == node && a.message in batch && a.message !in batch[k..] {
        assert batch == batch[..k] + batch[k..];
        assert a.message in Arrivals(batch, outcomes);
        if !AnyCurrent(f.tables, a.message.report) {
          assert f.steps[..|f.steps|] == f.steps;
          assert NotCurrentAt(t, f.steps, |f.steps|, a.message.report);
        }
      }
    }
  }

  lemma DrainKeepsAccount(t: Tables, f: Farm, at: int, a: Made)
    requires Sound(t, f) && a in f.made
    ensures Accounted(t, Next(f, Drain(at)), a)
  {
    hide Run, TookEffect, Overtaken;
    var more := Draining(f, at);
    StillSettled(t, f.steps, more, a.since, a.message);
    if Queued(f, a.message) {
      var i := DrainDelivers(f, at, a.message);
      DeliveryDecides(t, f.steps + more, a.since, |f.steps| + i, a.message);
    }
  }

  lemma DrainDelivers(f: Farm, at: int, m: Message) returns (i: nat)
    requires Queued(f, m)
    ensures i < |Draining(f, at)| && IsDelivery(Draining(f, at)[i], m.report, m.kind)
  {
    if m.kind == Completion {
      i :| i < |f.completions| && f.completions[i] == m.report;
    } else {
      var j :| 0 <= j < |f.failures| && f.failures[j] == m.report;
      i := |f.completions| + j;
    }
  }

  lemma HappeningKeepsSound(t: Tables, f: Farm, h: Happening)
    requires Sound(t, f)
    ensures Sound(t, Next(f, h))
  {
    hide Run, TookEffect, Overtaken, AnyCurrent;
    var f' := Next(f, h);
    match h {
      case Finish(node, m) =>
        forall a | a in f'.made
          ensures Accounted(t, f', a)
        {
          assert a in f.made || a == Made(node, m, |f.steps|);
        }
      case Flush(node, outcomes) =>
        FlushOnlyMoves(f, node, outcomes);
        forall a | a in f.made
          ensures Accounted(t, f', a)
        {
          FlushKeepsAccount(t, f, node, outcomes, a);
        }
      case Drain(at) =>
        RunConcat(t, f.steps, Draining(f, at));
        forall a | a in f.made
          ensures Accounted(t, f', a)
        {
          DrainKeepsAccount(t, f, at, a);
        }
      case Other(step) =>
        RunConcat(t, f.steps, [step]);
        forall a | a in f.made
          ensures Accounted(t, f', a)
        {
          StillSettled(t, f.steps, [step], a.since, a.message);
        }
    }
  }

  lemma FlushOnlyMoves(f: Farm, node: NodeId, outcomes: seq<ReportLink.Outcome>)
    ensures var f' := Next(f, Flush(node, outcomes));
            f'.tables == f.tables && f'.steps == f.steps && f'.made == f.made
  {
    var batch := Buffer(f, node);
    if |outcomes| == |batch| {
      ReceivingOnlyQueues(f.(buffers := f.buffers[node := batch[ReportLink.AnsweredPrefix(outcomes)..]]), Arrivals(batch, outcomes));
    }
  }

  lemma {:induction false} HistoryKeepsSound(t: Tables, f: Farm, hs: seq<Happening>)
    requires Sound(t, f)
    ensures Sound(t, After(f, hs))
    decreases |hs|
  {
    hide Sound, Next;
    if hs != [] {
      HappeningKeepsSound(t, f, hs[0]);
      HistoryKeepsSound(t, Next(f, hs[0]), hs[1..]);
    }
  }

  // ---- End to end ----

  /** Over any history, with any posts and answers lost: once nothing is buffered at its worker and
      nothing is queued at the leader, every report made has taken effect since it was made - or at some
      moment since then no row took it for current, so that there was nothing left for it to do. */
  lemma EveryReportArrives(t: Tables, hs: seq<Happening>, a: Made)
    requires var f := After(Start(t), hs);
             a in f.made && Buffer(f, a.node) == [] && f.completions == [] && f.failures == []
    ensures var f := After(Start(t), hs);
            && a.since <= |f.steps| && f.tables == Run(t, f.steps)
            && (TookEffect(t, f.steps, a.since, a.message) || Overtaken(t, f.steps, a.since, a.message))
  {
    hide After, TookEffect, Overtaken;
    assert Sound(t, Start(t));
    HistoryKeepsSound(t, Start(t), hs);
  }

  /** And over any history it takes effect at most once more often than there were unsettling steps, however
      often it was made, posted and received. */
  lemma NoReportCountsTwice(t: Tables, hs: seq<Happening>, m: Message)
    requires Inv(t) && (m.kind == Failure ==> m.report.node != "")
    ensures var f := After(Start(t), hs);
            && f.tables == Run(t, f.steps)
            && Landings(t, f.steps, m.report, m.kind) <= 1 + Unsettlings(t, f.steps, m.report, m.kind)
  {
    hide After, Landings, Unsettlings, Accounted;
    assert Sound(t, Start(t));
    HistoryKeepsSound(t, Start(t), hs);
    LandingsBounded(t, After(Start(t), hs).steps, m.report, m.kind);
  }

  /** A report that was current when it was made, and whose chunk is left alone until everything is drained,
      has taken effect by then: exactly once. */
  lemma UndisturbedReportLands(t: Tables, hs: seq<Happening>, a: Made)
    requires Inv(t)
    requires var f := After(Start(t), hs);
             a in f.made && Buffer(f, a.node) == [] && f.completions == [] && f.failures == []
    requires var f, r := After(Start(t), hs), a.message.report;
             a.since <= |f.steps| ==>
               && AnyCurrent(Run(t, f.steps[..a.since]), r)
               && LeftAlone(Run(t, f.steps[..a.since]), f.steps[a.since..], r, a.message.kind)
    ensures var f := After(Start(t), hs);
            && a.since <= |f.steps|
            && Landings(Run(t, f.steps[..a.since]), f.steps[a.since..], a.message.report, a.message.kind) == 1
  {
    hide After, Inv, AnyCurrent, Landings, LeftAlone, TookEffect, Overtaken;
    var f, r, kind := After(Start(t), hs), a.message.report, a.message.kind;
    EveryReportArrives(t, hs, a);
    var made, rest := Run(t, f.steps[..a.since]), f.steps[a.since..];
    RunKeepsInv(t, f.steps[..a.since]);
    CurrentOnce(made, rest, r, kind);
    if Overtaken(t, f.steps, a.since, a.message) {
      var n := OvertakenAt(t, f.steps, a.since, a.message);
      CurrentNoMore(made, rest, r, kind, n - a.since);
    } else {
      EffectIsLanding(t, f.steps, a.since, a.message);
    }
  }

  lemma OvertakenAt(t: Tables, steps: seq<Step>, since: nat, m: Message) returns (n: nat)
    requires since <= |steps| && Overtaken(t, steps, since, m)
    ensures since <= n <= |steps| && !AnyCurrent(Run(Run(t, steps[..since]), steps[since..][..n - since]), m.report)
  {
    n :| since <= n <= |steps| && NotCurrentAt(t, steps, n, m.report);
    RunConcat(t, steps[..since], steps[since..][..n - since]);
    assert steps[..n] == steps[..since] + steps[since..][..n - since];
  }

  lemma EffectIsLanding(t: Tables, steps: seq<Step>, since: nat, m: Message)
    requires since <= |steps| && TookEffect(t, steps, since, m)
    ensures Landings(Run(t, steps[..since]), steps[since..], m.report, m.kind) >= 1
  {
  }

  lemma CurrentOnce(t: Tables, steps: seq<Step>, r: Report, kind: Kind)
    requires Inv(t) && AnyCurrent(t, r) && LeftAlone(t, steps, r, kind)
    ensures Landings(t, steps, r, kind) <= 1
  {
    hide Inv, Landings, LeftAlone;
    var id :| id in t.chunks && Current(t.chunks[id], r);
    LandsExactlyOnce(t, steps, r, kind, id);
  }

  lemma CurrentNoMore(t: Tables, steps: seq<Step>, r: Report, kind: Kind, n: nat)
    requires Inv(t) && AnyCurrent(t, r) && LeftAlone(t, steps, r, kind)
    requires n <= |steps| && !AnyCurrent(Run(t, steps[..n]), r)
    ensures Landings(t, steps, r, kind) >= 1
  {
    hide Inv, Landings, LeftAlone;
    var id :| id in t.chunks && Current(t.chunks[id], r);
    assert steps == steps[..n] + steps[n..];
    AloneInParts(t, steps[..n], steps[n..], r, kind);
    LandsExactlyOnce(t, steps[..n], r, kind, id);
    LandingsConcat(t, steps[..n], steps[n..], r, kind);
  }
}
