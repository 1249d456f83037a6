/** The agent counts completed frames from two output streams at once. Each of the two threads, on a
    matching line, first takes a ticket from a shared atomic counter and then sends the frame of that
    ticket - two steps between which the other thread may do anything. Counter and frames are 32-bit
    and wrap. */
module FrameCounter {

  const U32: nat := 0x1_0000_0000

  type Frame = n: nat | n < U32

  /** A thread is waiting for a matching line, or holds a ticket it has not used yet. */
  datatype Thread = Waiting | Holding(count: Frame)

  datatype Agent = Agent(
    first: Frame,
    last: Frame,
    counter: Frame,
    stdout: Thread,
    stderr: Thread,
    sent: seq<Frame>,
    matches: nat)

  datatype Stream = Stdout | Stderr

  datatype Event = Match(stream: Stream) | Send(stream: Stream)

  function Start(first: Frame, last: Frame): Agent { Agent(first, last, 0, Waiting, Waiting, [], 0) }

  function ThreadOf(a: Agent, s: Stream): Thread {
    match s
    case Stdout => a.stdout
    case Stderr => a.stderr
  }

  function WithThread(a: Agent, s: Stream, t: Thread): Agent {
    match s
    case Stdout => a.(stdout := t)
    case Stderr => a.(stderr := t)
  }

  /** The frame of a ticket: 32-bit addition. */
  function FrameOf(first: Frame, count: nat): Frame { (first + count) % U32 }

  /** One atomic step of one thread; a step that its thread is not at does nothing. */
  function Next(a: Agent, e: Event): Agent {
    match (e, ThreadOf(a, e.stream))
    case (Match(s), Waiting) =>
      WithThread(a, s, Holding(a.counter)).(counter := (a.counter + 1) % U32, matches := a.matches + 1)
    case (Send(s), Holding(count)) =>
      var frame := FrameOf(a.first, count);
      WithThread(a, s, Waiting).(sent := if frame <= a.last then a.sent + [frame] else a.sent)
    case _ => a
  }

  /** Any interleaving of the two threads. */
  function Run(a: Agent, events: seq<Event>): Agent
    decreases |events|
  {
    if events == [] then a else Run(Next(a, events[0]), events[1..])
  }

  // ---- Conservation ----

  function Announced(first: Frame, last: Frame, count: nat): multiset<Frame> {
    if FrameOf(first, count) <= last then multiset{FrameOf(first, count)} else multiset{}
  }

  /** What the first n tickets are worth. */
  function Worth(first: Frame, last: Frame, n: nat): multiset<Frame> {
    if n == 0 then multiset{} else Worth(first, last, n - 1) + Announced(first, last, n - 1)
  }

  function Owed(a: Agent, s: Stream): multiset<Frame> {
    match ThreadOf(a, s)
    case Waiting => multiset{}
    case Holding(count) => Announced(a.first, a.last, count)
  }

  /** No ticket is lost or used twice: what was sent and what the threads still owe is what the
      tickets drawn so far are worth. */
  ghost predicate Conserved(a: Agent) {
    && a.counter == a.matches % U32
    && multiset(a.sent) + Owed(a, Stdout) + Owed(a, Stderr) == Worth(a.first, a.last, a.matches)
  }

  lemma WrapsAway(x: nat, n: nat)
    ensures (x + n % U32) % U32 == (x + n) % U32
  {
    var q := n / U32;
    assert x + n == U32 * q + (x + n % U32);
  }

  lemma WrappedTicket(first: Frame, last: Frame, n: nat)
    ensures Announced(first, last, n % U32) == Announced(first, last, n)
  {
    WrapsAway(first, n);
  }

  lemma NextCount(n: nat)
    ensures (n % U32 + 1) % U32 == (n + 1) % U32
  {
    WrapsAway(1, n);
  }

  lemma StepConserves(a: Agent, e: Event)
    requires Conserved(a)
    ensures Conserved(Next(a, e)) && Next(a, e).first == a.first && Next(a, e).last == a.last
  {
    hide FrameOf, Announced;
    var b := Next(a, e);
    WrappedTicket(a.first, a.last, a.matches);
    NextCount(a.matches);
    if e.Send? && ThreadOf(a, e.stream).Holding? {
      Settled(a, ThreadOf(a, e.stream).count);
      assert multiset(b.sent) == multiset(a.sent) + Owed(a, e.stream);
    }
  }

  lemma Settled(a: Agent, count: Frame)
    ensures var frame := FrameOf(a.first, count);
            multiset(if frame <= a.last then a.sent + [frame] else a.sent) == multiset(a.sent) + Announced(a.first, a.last, count)
  {
  }

  lemma {:induction false} RunConserves(a: Agent, events: seq<Event>)
    requires Conserved(a)
    ensures Conserved(Run(a, events)) && Run(a, events).first == a.first && Run(a, events).last == a.last
    decreases |events|
  {
    hide Conserved, Next;
    if events != [] {
      StepConserves(a, events[0]);
      RunConserves(Next(a, events[0]), events[1..]);
    }
  }

  lemma StartConserves(first: Frame, last: Frame)
    ensures Conserved(Start(first, last))
  {
  }

  // ---- What the tickets are worth ----

  lemma {:induction false} WorthBelowWrap(first: Frame, last: Frame, n: nat, f: Frame)
    requires first + n <= U32
    ensures Worth(first, last, n)[f] == if first <= f < first + n && f <= last then 1 else 0
    decreases n
  {
    hide FrameOf, Worth;
    WorthByTicket(first, last, n, f);
    if n > 0 {
      WorthBelowWrap(first, last, n - 1, f);
      NoWrap(first, n - 1);
    }
  }

  lemma WorthByTicket(first: Frame, last: Frame, n: nat, f: Frame)
    ensures Worth(first, last, n)[f]
            == if n == 0 then 0
               else Worth(first, last, n - 1)[f] + if FrameOf(first, n - 1) == f && f <= last then 1 else 0
  {
    hide FrameOf;
  }

  lemma NoWrap(first: Frame, count: nat)
    requires first + count < U32
    ensures FrameOf(first, count) == first + count
  {
  }

  lemma {:induction false} WorthGrows(first: Frame, last: Frame, m: nat, n: nat)
    requires m <= n
    ensures Worth(first, last, m) <= Worth(first, last, n)
    decreases n
  {
    hide Announced;
    if m < n { WorthGrows(first, last, m, n - 1); }
  }

  /** One match too many brings frame 0 round again. */
  lemma WorthPastWrap(first: Frame, last: Frame, n: nat)
    requires first + n > U32
    ensures if first == 0 then Worth(first, last, n)[0] >= 2 else Worth(first, last, n)[0] >= 1
  {
    var k := U32 - first;
    assert Announced(first, last, k) == multiset{0};
    assert Worth(first, last, k + 1) == Worth(first, last, k) + multiset{0};
    WorthGrows(first, last, k + 1, n);
    if first == 0 { WorthBelowWrap(first, last, k, 0); }
  }

  // ---- The promise ----

  /** Exactly the first n frames of the range, each once, as far as the range goes. */
  ghost predicate Exact(a: Agent, n: nat) {
    && (forall i, j :: 0 <= i < j < |a.sent| ==> a.sent[i] != a.sent[j])
    && (forall f: Frame :: f in a.sent <==> a.first <= f <= a.last && f < a.first + n)
  }

  lemma {:induction false} OnceEach(s: seq<Frame>)
    ensures (forall f :: f in s ==> multiset(s)[f] == 1) <==> forall i, j :: 0 <= i < j < |s| ==> s[i] != s[j]
    decreases |s|
  {
    if s != [] {
      var init, last := s[..|s| - 1], s[|s| - 1];
      assert s == init + [last];
      assert multiset(s) == multiset(init) + multiset{last};
      OnceEach(init);
      if forall f :: f in s ==> multiset(s)[f] == 1 {
        forall f | f in init
          ensures multiset(init)[f] == 1
        {
          assert f in s;
        }
        assert last !in init by { assert last in s; }
      }
      if forall i, j :: 0 <= i < j < |s| ==> s[i] != s[j] {
        assert forall i, j :: 0 <= i < j < |init| ==> init[i] == s[i] && init[j] == s[j];
        assert last !in init;
        forall f | f in s
          ensures multiset(s)[f] == 1
        {
          assert f in init || f == last;
        }
      }
    }
  }

  /** At every moment of every interleaving, short of a wrap: no frame has been announced twice, none
      outside the range, and none whose match has not been seen. */
  lemma AlwaysSound(first: Frame, last: Frame, events: seq<Event>)
    requires first + Run(Start(first, last), events).matches <= U32
    ensures var a := Run(Start(first, last), events);
            && (forall i, j :: 0 <= i < j < |a.sent| ==> a.sent[i] != a.sent[j])
            && (forall f :: f in a.sent ==> first <= f <= last && f < first + a.matches)
  {
    hide Worth, Run;
    var a := Run(Start(first, last), events);
    StartConserves(first, last);
    RunConserves(Start(first, last), events);
    forall f | f in a.sent
      ensures multiset(a.sent)[f] == 1 && first <= f <= last && f < first + a.matches
    {
      WorthBelowWrap(first, last, a.matches, f);
      assert f in multiset(a.sent);
      assert multiset(a.sent)[f] <= Worth(first, last, a.matches)[f];
    }
    OnceEach(a.sent);
  }

  /** Once n matches have all been sent, exactly the first min(n, length) frames have been announced -
      if and only if the frame numbers of n matches fit in 32 bits. */
  lemma ExactIffNoWrap(first: Frame, last: Frame, events: seq<Event>)
    requires var a := Run(Start(first, last), events); a.stdout.Waiting? && a.stderr.Waiting?
    ensures var a := Run(Start(first, last), events);
            Exact(a, a.matches) <==> first + a.matches <= U32
  {
    hide Worth, Run;
    var a := Run(Start(first, last), events);
    StartConserves(first, last);
    RunConserves(Start(first, last), events);
    assert multiset(a.sent) == Worth(first, last, a.matches);
    if first + a.matches <= U32 {
      AlwaysSound(first, last, events);
      forall f: Frame | first <= f <= last && f < first + a.matches
        ensures f in a.sent
      {
        WorthBelowWrap(first, last, a.matches, f);
        assert f in multiset(a.sent);
      }
    } else {
      WorthPastWrap(first, last, a.matches);
      assert 0 in multiset(a.sent);
      OnceEach(a.sent);
    }
  }
}
