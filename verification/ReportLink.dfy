/** The worker's buffered, retried report delivery, over whole histories: at least once, in order,
    with nothing lost. */
module ReportLink {

  /** What became of one POST: answered 200, answered 200 with a stale verdict, or unanswered -
      in which case the leader may have handled it all the same. */
  datatype Outcome = Acked | Stale | LostOnTheWay | LostOnTheWayBack

  predicate Answered(o: Outcome) { o.Acked? || o.Stale? }

  predicate Reached(o: Outcome) { !o.LostOnTheWay? }

  /** How many reports of a batch are answered before the first that is not. */
  function AnsweredPrefix(outcomes: seq<Outcome>): (k: nat)
    ensures k <= |outcomes|
    ensures forall i :: 0 <= i < k ==> Answered(outcomes[i])
    ensures k < |outcomes| ==> !Answered(outcomes[k])
  {
    if outcomes == [] || !Answered(outcomes[0]) then 0 else 1 + AnsweredPrefix(outcomes[1..])
  }

  /** All reports made so far, those still buffered, and those the leader has received, in order. */
  datatype Link<R> = Link(made: seq<R>, buffer: seq<R>, received: seq<R>)

  datatype Event<R> = Make(report: R) | Flush(outcomes: seq<Outcome>)

  /** A flush without a known leader posts nothing: it is a flush whose first POST is lost. */
  function Next<R>(l: Link<R>, e: Event<R>): Link<R> {
    match e
    case Make(r) => l.(made := l.made + [r], buffer := l.buffer + [r])
    case Flush(outcomes) =>
      if |outcomes| != |l.buffer| then l else
        var k := AnsweredPrefix(outcomes);
        var last := if k < |outcomes| && Reached(outcomes[k]) then [l.buffer[k]] else [];
        l.(buffer := l.buffer[k..], received := l.received + l.buffer[..k] + last)
  }

  /** A flush in which the k-th POST is the first that gets no answer: the leader has the k reports before it, and
      that one too if only its answer was lost; it and all after it stay buffered. Without such a POST the leader has
      them all. */
  lemma FlushDelivers<R>(l: Link<R>, outcomes: seq<Outcome>, k: nat)
    requires |outcomes| == |l.buffer| && k <= |outcomes|
    requires forall i :: 0 <= i < k ==> outcomes[i] == Acked || outcomes[i] == Stale
    requires k < |outcomes| ==> outcomes[k] == LostOnTheWay || outcomes[k] == LostOnTheWayBack
    ensures var l' := Next(l, Flush(outcomes));
            && l'.made == l.made && l'.buffer == l.buffer[k..]
            && l'.received == l.received + if k < |outcomes| && outcomes[k] == LostOnTheWayBack then l.buffer[..k + 1] else l.buffer[..k]
  {
    assert AnsweredPrefix(outcomes) == k;
    if k < |outcomes| { assert l.buffer[..k + 1] == l.buffer[..k] + [l.buffer[k]]; }
  }

  function After<R>(l: Link<R>, events: seq<Event<R>>): Link<R>
    decreases |events|
  {
    if events == [] then l else After(Next(l, events[0]), events[1..])
  }

  /** d lists the elements of h in order, each one or more times in a row. */
  ghost predicate Stutters<R>(d: seq<R>, h: seq<R>) {
    if h == [] then d == []
    else d != [] && d[|d| - 1] == h[|h| - 1]
         && (Stutters(d[..|d| - 1], h) || Stutters(d[..|d| - 1], h[..|h| - 1]))
  }

  /** The leader has received the first n reports made, possibly with repeats, and those from n on -
      of which it may have received only the first - are still buffered. */
  ghost predicate InOrder<R>(l: Link<R>, n: nat) {
    && n <= |l.made| && l.buffer == l.made[n..]
    && (Stutters(l.received, l.made[..n]) || (n < |l.made| && Stutters(l.received, l.made[..n + 1])))
  }

  lemma StutterNext<R>(d: seq<R>, h: seq<R>, n: nat)
    requires n < |h| && (Stutters(d, h[..n]) || Stutters(d, h[..n + 1]))
    ensures Stutters(d + [h[n]], h[..n + 1])
  {
    var d', h' := d + [h[n]], h[..n + 1];
    assert d'[..|d'| - 1] == d && h'[..|h'| - 1] == h[..n];
  }

  /** Receiving a further stretch of reports, the first of which may be a repeat. */
  lemma {:induction false} StutterMore<R>(d: seq<R>, h: seq<R>, n: nat, k: nat)
    requires n + k <= |h| && (Stutters(d, h[..n]) || (n < |h| && Stutters(d, h[..n + 1])))
    ensures k > 0 ==> Stutters(d + h[n..n + k], h[..n + k])
    decreases k
  {
    if k == 1 {
      StutterNext(d, h, n);
      assert h[n..n + 1] == [h[n]];
    } else if k > 1 {
      StutterMore(d, h, n, k - 1);
      var d' := d + h[n..n + k - 1];
      StutterNext(d', h, n + k - 1);
      assert d' + [h[n + k - 1]] == d + h[n..n + k];
    }
  }

  lemma EventKeepsOrder<R>(l: Link<R>, e: Event<R>, n: nat) returns (m: nat)
    requires InOrder(l, n)
    ensures n <= m && InOrder(Next(l, e), m)
  {
    hide Stutters;
    var l' := Next(l, e);
    if e.Make? {
      m := n;
      assert l'.made[..n] == l.made[..n];
      if n < |l.made| { assert l'.made[..n + 1] == l.made[..n + 1]; }
    } else if |e.outcomes| != |l.buffer| {
      m := n;
    } else {
      var k := AnsweredPrefix(e.outcomes);
      m := n + k;
      var got := l.received + l.buffer[..k];
      StutterMore(l.received, l.made, n, k);
      assert l.buffer[..k] == l.made[n..m] && l.buffer[k..] == l.made[m..];
      if k == 0 { assert got == l.received; }
      if k < |e.outcomes| && Reached(e.outcomes[k]) {
        assert l.buffer[k] == l.made[m];
        StutterNext(got, l.made, m);
      } else {
        assert l'.received == got;
      }
    }
  }

  /** At-least-once delivery over any history of reports and flushes: every report made is still
      buffered or has reached the leader, the leader sees them in the order they were made, and a
      repeat can only be of the report just before. */
  lemma {:induction false} NothingIsLost<R>(l: Link<R>, events: seq<Event<R>>, n: nat) returns (m: nat)
    requires InOrder(l, n)
    ensures n <= m && InOrder(After(l, events), m)
    decreases |events|
  {
    if events == [] {
      m := n;
    } else {
      var k := EventKeepsOrder(l, events[0], n);
      m := NothingIsLost(Next(l, events[0]), events[1..], k);
    }
  }

  /** A list that stutters through h has every element of h. */
  lemma {:induction false} StutterHasAll<R>(d: seq<R>, h: seq<R>)
    requires Stutters(d, h)
    ensures forall x :: x in h <==> x in d
    decreases |d|
  {
    if h != [] {
      var d', h' := d[..|d| - 1], h[..|h| - 1];
      assert d == d' + [d[|d| - 1]] && h == h' + [h[|h| - 1]];
      if Stutters(d', h) { StutterHasAll(d', h); } else { StutterHasAll(d', h'); }
    }
  }
}
