/** Machine-level failure tracking: a node that fails too often in a short time is suspended. */
module FailureTracker {
  import opened Wrappers
  import opened FarmTables

  datatype Record = Record(count: int, first: int, last: int, suspended: bool)

  const SUSPEND_THRESHOLD := 5
  const SUSPEND_WINDOW_MS := 300000
  const FAILURE_COOLDOWN_MS := 30000

  const FRESH := Record(0, 0, 0, false)

  /** One more failure at this time. The window starts at the first failure counted, and a failure
      past its end starts a new one. */
  function After(r: Record, now: int): Record {
    var expired := r.first > 0 && now - r.first > SUSPEND_WINDOW_MS;
    var count := if expired then 1 else r.count + 1;
    Record(count, if expired || r.count == 0 then now else r.first, now, r.suspended || count >= SUSPEND_THRESHOLD)
  }

  /** The record of a node that failed at these times. */
  function History(times: seq<int>): Record {
    if times == [] then FRESH else After(History(times[..|times| - 1]), times[|times| - 1])
  }

  ghost predicate Chronological(times: seq<int>) {
    && (forall i :: 0 <= i < |times| ==> 0 < times[i])
    && (forall i, j :: 0 <= i < j < |times| ==> times[i] <= times[j])
  }

  /** Five failures in a row, the last within the window of the first. */
  ghost predicate Burst(times: seq<int>, i: nat) {
    i + SUSPEND_THRESHOLD <= |times| && times[i + SUSPEND_THRESHOLD - 1] - times[i] <= SUSPEND_WINDOW_MS
  }

  /** The counted failures are the latest ones, all inside one window from the first of them. */
  lemma {:induction false} CountsLatest(times: seq<int>)
    requires Chronological(times)
    ensures var r := History(times);
            && 0 <= r.count <= |times| && (times != [] ==> 0 < r.count)
            && (0 < r.count ==> r.first == times[|times| - r.count] && r.last == times[|times| - 1]
                                && r.last - r.first <= SUSPEND_WINDOW_MS)
            && (r.suspended ==> exists i: nat :: Burst(times, i))
    decreases |times|
  {
    if times != [] {
      var before := times[..|times| - 1];
      CountsLatest(before);
      var r := History(times);
      if History(before).suspended {
        var i: nat :| Burst(before, i);
        assert Burst(times, i);
      } else if r.suspended {
        var first := |times| - r.count;
        assert times[first] == r.first && times[first + SUSPEND_THRESHOLD - 1] <= times[|times| - 1];
        assert Burst(times, first);
      }
    }
  }

  /** A window starts at the first failure, and at the first one past the end of the window before. */
  ghost predicate StartsWindow(times: seq<int>, j: nat)
    requires j < |times|
  {
    j == 0 || exists i: nat :: i < j && StartsWindow(times, i) && SucceedsWindow(times, i, j)
  }

  predicate SucceedsWindow(times: seq<int>, i: nat, j: nat)
    requires i < j < |times|
  {
    times[j] - times[i] > SUSPEND_WINDOW_MS && times[j - 1] - times[i] <= SUSPEND_WINDOW_MS
  }

  lemma OneFailureMore(times: seq<int>, n: nat)
    requires n < |times|
    ensures History(times[..n + 1]) == After(History(times[..n]), times[n]) && History(times[..0]) == FRESH
  {
    assert times[..n + 1][..n] == times[..n];
  }

  lemma TimesPass(times: seq<int>, i: nat, j: nat)
    requires Chronological(times) && i <= j < |times|
    ensures 0 < times[i] <= times[j]
  {
  }

  lemma WindowBefore(times: seq<int>, j: nat) returns (i: nat)
    requires 0 < j < |times| && StartsWindow(times, j)
    ensures i < j && StartsWindow(times, i) && SucceedsWindow(times, i, j)
  {
    i :| i < j && StartsWindow(times, i) && SucceedsWindow(times, i, j);
  }

  lemma WindowAfter(times: seq<int>, i: nat, j: nat)
    requires i < j < |times| && StartsWindow(times, i) && SucceedsWindow(times, i, j)
    ensures StartsWindow(times, j)
  {
  }

  /** While a window lasts, the counter counts from its start. */
  lemma {:induction false} WindowInForce(times: seq<int>, n: nat, i: nat)
    requires Chronological(times) && i < n <= |times| && StartsWindow(times, i) && times[n - 1] - times[i] <= SUSPEND_WINDOW_MS
    ensures History(times[..n]).count == n - i && History(times[..n]).first == times[i]
    decreases n
  {
    hide History, StartsWindow, Chronological;
    OneFailureMore(times, n - 1);
    if i < n - 1 {
      TimesPass(times, n - 2, n - 1);
      WindowInForce(times, n - 1, i);
    } else if i > 0 {
      var h := WindowBefore(times, i);
      TimesPass(times, h, i);
      WindowInForce(times, n - 1, h);
    }
  }

  /** Some window has filled up within the first n failures. */
  ghost predicate Filled(times: seq<int>, n: nat)
    requires n <= |times|
  {
    exists i: nat :: i + SUSPEND_THRESHOLD <= n && StartsWindow(times, i) && Burst(times, i)
  }

  lemma OneMoreFilled(times: seq<int>, n: nat)
    requires n < |times|
    ensures Filled(times, n + 1) <==>
            Filled(times, n)
            || (n + 1 >= SUSPEND_THRESHOLD && StartsWindow(times, n + 1 - SUSPEND_THRESHOLD) && Burst(times, n + 1 - SUSPEND_THRESHOLD))
  {
    hide StartsWindow, Burst;
    if i: nat :| i + SUSPEND_THRESHOLD <= n + 1 && StartsWindow(times, i) && Burst(times, i) {
      if i + SUSPEND_THRESHOLD <= n { assert Filled(times, n); }
    }
  }

  /** Which window is in force, and whether any has filled up so far. */
  lemma {:induction false} WindowsSoFar(times: seq<int>, n: nat)
    requires Chronological(times) && 0 < n <= |times|
    ensures var r := History(times[..n]);
            && 0 < r.count <= n && StartsWindow(times, n - r.count) && r.first == times[n - r.count]
            && times[n - 1] - r.first <= SUSPEND_WINDOW_MS
            && (r.suspended <==> Filled(times, n))
    decreases n
  {
    hide History, Chronological, Filled;
    OneFailureMore(times, n - 1);
    OneMoreFilled(times, n - 1);
    TimesPass(times, n - 1, n - 1);
    var before, r := History(times[..n - 1]), History(times[..n]);
    if n == 1 {
      NoneFilled(times);
    } else {
      WindowsSoFar(times, n - 1);
      TimesPass(times, n - 1 - before.count, n - 1);
      if r.count == 1 && before.count > 0 && times[n - 1] - before.first > SUSPEND_WINDOW_MS {
        WindowAfter(times, n - 1 - before.count, n - 1);
      }
    }
    var i := n - SUSPEND_THRESHOLD;
    if i >= 0 && StartsWindow(times, i) && Burst(times, i) { WindowInForce(times, n, i); }
    FilledAlready(times, n, r.count);
  }

  lemma NoneFilled(times: seq<int>)
    ensures !Filled(times, 0)
  {
  }

  /** A window that has reached the threshold filled up when it did. */
  lemma FilledAlready(times: seq<int>, n: nat, count: nat)
    requires Chronological(times) && count <= n <= |times| && (count > 0 ==> StartsWindow(times, n - count))
    requires count > 0 ==> times[n - 1] - times[n - count] <= SUSPEND_WINDOW_MS
    ensures count >= SUSPEND_THRESHOLD ==> Filled(times, n)
  {
    if count >= SUSPEND_THRESHOLD {
      var i := n - count;
      TimesPass(times, i + SUSPEND_THRESHOLD - 1, n - 1);
      assert Burst(times, i);
    }
  }

  /** A node is suspended exactly when five failures in a row, the first of them the start of a window,
      fall into that window. */
  lemma SuspendedIff(times: seq<int>)
    requires Chronological(times)
    ensures History(times).suspended <==> exists i: nat :: i < |times| && StartsWindow(times, i) && Burst(times, i)
  {
    if times != [] {
      assert times[..|times|] == times;
      WindowsSoFar(times, |times|);
      assert Filled(times, |times|) <==> exists i: nat :: i < |times| && StartsWindow(times, i) && Burst(times, i);
    }
  }

  /** Not every burst suspends: the window is anchored at the first failure counted, so a burst that
      straddles its end is split. */
  lemma SplitBurstEscapes()
    ensures var times := [1, 299000, 299001, 299002, 300002, 300003];
            Chronological(times) && Burst(times, 1) && !History(times).suspended
  {
    var times := [1, 299000, 299001, 299002, 300002, 300003];
    assert times[..5] == [1, 299000, 299001, 299002, 300002];
    assert times[..5][..4] == [1, 299000, 299001, 299002];
    assert times[..5][..4][..3] == [1, 299000, 299001];
    assert times[..5][..4][..3][..2] == [1, 299000];
    assert times[..5][..4][..3][..2][..1] == [1];
    assert times[..5][..4][..3][..2][..1][..0] == [];
    assert History([1]) == Record(1, 1, 1, false);
    assert History([1, 299000]) == Record(2, 1, 299000, false);
    assert History([1, 299000, 299001]) == Record(3, 1, 299001, false);
    assert History([1, 299000, 299001, 299002]) == Record(4, 1, 299002, false);
    assert History([1, 299000, 299001, 299002, 300002]) == Record(1, 300002, 300002, false);
  }

  /** The i-th failure and the four after it. */
  ghost predicate WithinFiveMinutes(times: seq<int>, i: nat)
    requires i + 5 <= |times|
  {
    times[i + 4] - times[i] <= 5 * 60 * 1000
  }

  class Tracker {
    var records: map<NodeId, Record>
    /** When each node failed since it was last cleared. */
    ghost var failures: map<NodeId, seq<int>>

    ghost predicate Valid()
      reads this
    {
      && records.Keys == failures.Keys
      && forall n :: n in records ==> failures[n] != [] && records[n] == History(failures[n])
    }

    constructor ()
      ensures Valid() && records == map[] && failures == map[]
    {
      records, failures := map[], map[];
    }

    ghost function FailuresOf(node: NodeId): seq<int>
      reads this
    {
      if node in failures then failures[node] else []
    }

    method RecordFailure(node: NodeId, now: int)
      requires Valid()
      modifies this
      ensures Valid()
      ensures failures == old(failures)[node := old(FailuresOf(node)) + [now]]
    {
      var r := if node in records then records[node] else FRESH;
      if r.first > 0 && now - r.first > SUSPEND_WINDOW_MS {
        r := r.(count := 0, first := now);
      }
      if r.count == 0 {
        r := r.(first := now);
      }
      r := r.(count := r.count + 1, last := now);
      if r.count >= SUSPEND_THRESHOLD {
        r := r.(suspended := true);
      }
      records := records[node := r];
      ghost var times := FailuresOf(node) + [now];
      assert times[..|times| - 1] == FailuresOf(node);
      failures := failures[node := times];
    }

    predicate IsSuspended(node: NodeId)
      reads this
    {
      node in records && records[node].suspended
    }

    predicate IsInCooldown(node: NodeId, now: int)
      reads this
    {
      node in records && !records[node].suspended && now - records[node].last < FAILURE_COOLDOWN_MS
    }

    /** In seconds, for the history of failures of a node: it is suspended if and only if five of them in a row, the
        first of which starts a counting window, lie within five minutes; and it is in cooldown for half a minute
        after the last of them, unless it is suspended. A node without failures is neither. */
    lemma HoldsBack(node: NodeId, now: int)
      requires Valid() && Chronological(FailuresOf(node))
      ensures var times := FailuresOf(node);
              && (IsSuspended(node) <==> exists i: nat :: i + 5 <= |times| && StartsWindow(times, i) && WithinFiveMinutes(times, i))
              && (IsInCooldown(node, now) <==> times != [] && !IsSuspended(node) && now - times[|times| - 1] < 30000)
    {
      var times := FailuresOf(node);
      SuspendedIff(times);
      CountsLatest(times);
      assert forall i: nat :: Burst(times, i) <==> i + 5 <= |times| && WithinFiveMinutes(times, i);
    }

    method ClearNode(node: NodeId)
      requires Valid()
      modifies this
      ensures Valid() && failures == old(failures) - {node}
      ensures !IsSuspended(node) && forall now :: !IsInCooldown(node, now)
    {
      records := records - {node};
      failures := failures - {node};
    }
  }
}
