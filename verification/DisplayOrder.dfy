/** The one order of jobs that the list shows and the dispatcher follows, and moving a job in it. */
module DisplayOrder {
  import opened Wrappers
  import opened Ordering
  import opened ChunkPlan
  import opened FarmTables
  import opened TableInvariants

  // ---- Lists ----

  function IndexOf<T(==)>(s: seq<T>, x: T): (i: nat)
    requires x in s
    ensures i < |s| && s[i] == x && forall j :: 0 <= j < i ==> s[j] != x
  {
    if s[0] == x then 0 else 1 + IndexOf(s[1..], x)
  }

  function Without<T(==, !new)>(s: seq<T>, x: T): (r: seq<T>)
    ensures forall y :: y in r <==> y in s && y != x
  {
    if s == [] then [] else (if s[0] == x then [] else [s[0]]) + Without(s[1..], x)
  }

  /** s with x put in next to the target. */
  function InsertBeside<T(==)>(s: seq<T>, target: T, x: T, before: bool): seq<T>
    requires target in s
  {
    var k := if before then IndexOf(s, target) else IndexOf(s, target) + 1;
    s[..k] + [x] + s[k..]
  }

  lemma {:induction false} WithoutKeepsOrder<T(!new)>(s: seq<T>, keys: map<T, Key>, x: T)
    requires Lists(s, keys)
    ensures Lists(Without(s, x), keys - {x})
    decreases |s|
  {
    if s != [] {
      ListsTail(s, keys);
      WithoutKeepsOrder(s[1..], keys - {s[0]}, x);
      var rest := Without(s[1..], x);
      if s[0] == x {
        assert keys - {x} - {x} == keys - {x};
      } else {
        assert (keys - {x}) - {s[0]} == (keys - {s[0]}) - {x};
        HeadStaysFirst(s, keys, x);
        ListsCons(s[0], rest, keys - {x});
      }
    }
  }

  lemma HeadStaysFirst<T(!new)>(s: seq<T>, keys: map<T, Key>, x: T)
    requires Lists(s, keys) && s != [] && s[0] != x
    ensures IsFirst(s[0], keys - {x})
  {
  }

  /** Where everything stands after an insertion. */
  lemma InsertPlaces<T(!new)>(s: seq<T>, target: T, x: T, before: bool, k: nat)
    requires target in s && k == if before then IndexOf(s, target) else IndexOf(s, target) + 1
    ensures var e := InsertBeside(s, target, x, before);
            && |e| == |s| + 1 && k < |e| && e[k] == x
            && (forall i {:trigger e[i]} :: 0 <= i < k ==> e[i] == s[i])
            && (forall i {:trigger e[i]} :: k < i < |e| ==> e[i] == s[i - 1])
            && (forall y :: y in e <==> y == x || y in s)
  {
  }

  lemma InsertKeepsDistinct<T(!new)>(s: seq<T>, target: T, x: T, before: bool)
    requires target in s && NoDuplicates(s) && x !in s
    ensures NoDuplicates(InsertBeside(s, target, x, before))
  {
  }

  lemma IndexIsPlace<T>(s: seq<T>, i: nat)
    requires NoDuplicates(s) && i < |s|
    ensures IndexOf(s, s[i]) == i
  {
    assert s[i] in s;
  }

  /** In a sorted list, a smaller key means an earlier place. */
  lemma EarlierIffLess<T(!new)>(s: seq<T>, keys: map<T, Key>, i: nat, j: nat)
    requires Lists(s, keys) && i < |s| && j < |s|
    ensures s[i] in keys && s[j] in keys
    ensures i < j <==> keys[s[i]].Less(keys[s[j]])
  {
    assert s[i] in s && s[j] in s;
    if j < i { assert keys[s[j]].Less(keys[s[i]]); }
  }

  // ---- Moving a job ----

  predicate CanMove(jobs: map<JobId, Job>, job: JobId, target: JobId) {
    job != target && job in jobs && target in jobs
  }

  /** The keys of the jobs in the target's priority group, the moved job aside. */
  function RestKeys(jobs: map<JobId, Job>, job: JobId, priority: int): (keys: map<JobId, Key>)
    ensures Distinct(JobKeys(jobs)) ==> Distinct(keys)
  {
    var keys := map j | j in jobs && jobs[j].priority == priority && j != job :: JobKey(jobs[j]);
    assert forall j :: j in keys ==> keys[j] == JobKeys(jobs)[j];
    keys
  }

  /** The target's priority group in its new order. */
  function MovedGroup(jobs: map<JobId, Job>, job: JobId, target: JobId, before: bool): seq<JobId>
    requires Distinct(JobKeys(jobs)) && CanMove(jobs, job, target)
  {
    InsertBeside(Sorted(RestKeys(jobs, job, jobs[target].priority)), target, job, before)
  }

  const KEY_SPACING := 1024

  /** The whole group is renumbered with small spaced keys; the moved job adopts its priority. */
  function MoveRanks(jobs: map<JobId, Job>, job: JobId, target: JobId, before: bool): map<JobId, Rank>
    requires Distinct(JobKeys(jobs)) && CanMove(jobs, job, target)
  {
    var group := MovedGroup(jobs, job, target, before);
    map x | x in group :: Rank(jobs[target].priority, (IndexOf(group, x) + 1) * KEY_SPACING)
  }

  /** The jobs after a move. */
  function Moved(jobs: map<JobId, Job>, job: JobId, target: JobId, before: bool): map<JobId, Job>
    requires Distinct(JobKeys(jobs)) && CanMove(jobs, job, target)
  {
    Reranked(jobs, MoveRanks(jobs, job, target, before))
  }

  lemma NoRepeats<T(!new)>(s: seq<T>, keys: map<T, Key>)
    requires Lists(s, keys)
    ensures NoDuplicates(s)
  {
  }

  /** Who is in the group, and where they stand: members keep their order around the moved job. */
  lemma GroupPlaces(jobs: map<JobId, Job>, job: JobId, target: JobId, before: bool) returns (rest: seq<JobId>, c: nat, k: nat)
    requires Distinct(JobKeys(jobs)) && CanMove(jobs, job, target)
    ensures var group := MovedGroup(jobs, job, target, before);
            && rest == Sorted(RestKeys(jobs, job, jobs[target].priority))
            && c < |rest| && rest[c] == target && k == (if before then c else c + 1)
            && NoDuplicates(group)
            && (forall x :: x in rest <==> x in jobs && x != job && jobs[x].priority == jobs[target].priority)
            && (forall x :: x in group <==> x == job || x in rest)
            && |group| == |rest| + 1 && group[k] == job
            && (forall i {:trigger group[i]} :: 0 <= i < k ==> group[i] == rest[i])
            && (forall i {:trigger group[i]} :: k < i < |group| ==> group[i] == rest[i - 1])
  {
    var keys := RestKeys(jobs, job, jobs[target].priority);
    rest := Sorted(keys);
    assert target in rest && job !in rest;
    c := IndexOf(rest, target);
    k := if before then c else c + 1;
    NoRepeats(rest, keys);
    InsertPlaces(rest, target, job, before, k);
    InsertKeepsDistinct(rest, target, job, before);
  }

  /** A member's new key is given by its new place; jobs outside the group keep theirs. */
  lemma NewJob(jobs: map<JobId, Job>, job: JobId, target: JobId, before: bool, x: JobId)
    requires Distinct(JobKeys(jobs)) && CanMove(jobs, job, target) && x in jobs
    ensures var group := MovedGroup(jobs, job, target, before); var jobs' := Moved(jobs, job, target, before);
            && x in jobs'
            && (x in group <==> x == job || jobs[x].priority == jobs[target].priority)
            && (x in group ==> jobs'[x] == jobs[x].(priority := jobs[target].priority, sortKey := (IndexOf(group, x) + 1) * KEY_SPACING))
            && (x !in group ==> jobs'[x] == jobs[x])
  {
    hide MovedGroup, NoDuplicates, Sorted, IndexOf, Lists;
    var rest, c, k := GroupPlaces(jobs, job, target, before);
  }

  /** Two members of the group compare by their new places. */
  lemma PlaceDecides(jobs: map<JobId, Job>, job: JobId, target: JobId, before: bool, i: nat, j: nat)
    requires Distinct(JobKeys(jobs)) && CanMove(jobs, job, target)
    requires i < j < |MovedGroup(jobs, job, target, before)|
    ensures var group := MovedGroup(jobs, job, target, before); var jobs' := Moved(jobs, job, target, before);
            group[i] in jobs' && group[j] in jobs' && JobKey(jobs'[group[i]]).Less(JobKey(jobs'[group[j]]))
  {
    var group := MovedGroup(jobs, job, target, before);
    var rest, c, k := GroupPlaces(jobs, job, target, before);
    assert group[i] in group && group[j] in group;
    NewJob(jobs, job, target, before, group[i]);
    NewJob(jobs, job, target, before, group[j]);
    IndexIsPlace(group, i);
    IndexIsPlace(group, j);
  }

  lemma RestKey(jobs: map<JobId, Job>, job: JobId, priority: int, x: JobId)
    requires x in jobs && x != job && jobs[x].priority == priority
    ensures x in RestKeys(jobs, job, priority) && RestKeys(jobs, job, priority)[x] == JobKey(jobs[x])
  {
  }

  /** Two members of the group other than the moved one, by their places before and after. */
  lemma MemberPlaces(jobs: map<JobId, Job>, job: JobId, target: JobId, before: bool, x: JobId, y: JobId) returns (i: nat, j: nat, k: nat)
    requires Distinct(JobKeys(jobs)) && CanMove(jobs, job, target)
    requires x in jobs && x != job && jobs[x].priority == jobs[target].priority
    requires y in jobs && y != job && jobs[y].priority == jobs[target].priority
    ensures var group := MovedGroup(jobs, job, target, before);
            && i < |group| && j < |group| && k < |group| && group[i] == x && group[j] == y && group[k] == job
            && (JobKey(jobs[x]).Less(JobKey(jobs[y])) ==> i < j)
            && (y == target && (if before then JobKey(jobs[x]).Less(JobKey(jobs[y])) else x == y || JobKey(jobs[x]).Less(JobKey(jobs[y]))) ==> i < k)
            && (y == target && (if before then x == y || JobKey(jobs[y]).Less(JobKey(jobs[x])) else JobKey(jobs[y]).Less(JobKey(jobs[x]))) ==> k < i)
  {
    hide MovedGroup, RestKeys, IndexOf, Lists, NoDuplicates, Key.Less;
    var rest, c;
    rest, c, k := GroupPlaces(jobs, job, target, before);
    var keys := RestKeys(jobs, job, jobs[target].priority);
    RestKey(jobs, job, jobs[target].priority, x);
    RestKey(jobs, job, jobs[target].priority, y);
    var a, b := IndexOf(rest, x), IndexOf(rest, y);
    EarlierIffLess(rest, keys, a, b);
    EarlierIffLess(rest, keys, b, a);
    i, j := if a < k then a else a + 1, if b < k then b else b + 1;
    if y == target {
      NoRepeats(rest, keys);
      IndexIsPlace(rest, c);
    }
  }

  /** Two jobs other than the moved one compare as before. */
  lemma OthersKeepOrder(jobs: map<JobId, Job>, job: JobId, target: JobId, before: bool, x: JobId, y: JobId)
    requires Distinct(JobKeys(jobs)) && CanMove(jobs, job, target)
    requires x in jobs && y in jobs && x != job && y != job && JobKey(jobs[x]).Less(JobKey(jobs[y]))
    ensures var jobs' := Moved(jobs, job, target, before);
            x in jobs' && y in jobs' && JobKey(jobs'[x]).Less(JobKey(jobs'[y]))
  {
    hide Moved, MovedGroup;
    var p := jobs[target].priority;
    if jobs[x].priority == p && jobs[y].priority == p {
      var i, j, k := MemberPlaces(jobs, job, target, before, x, y);
      PlaceDecides(jobs, job, target, before, i, j);
    } else {
      NewJob(jobs, job, target, before, x);
      NewJob(jobs, job, target, before, y);
    }
  }

  /** The moved job stands right behind everything up to the place it was put in ... */
  lemma EarlierThanMoved(jobs: map<JobId, Job>, job: JobId, target: JobId, before: bool, x: JobId)
    requires Distinct(JobKeys(jobs)) && CanMove(jobs, job, target) && x in jobs && x != job
    requires JobKey(jobs[x]).Less(JobKey(jobs[target])) || (x == target && !before)
    ensures var jobs' := Moved(jobs, job, target, before);
            job in jobs' && x in jobs' && JobKey(jobs'[x]).Less(JobKey(jobs'[job]))
  {
    hide Moved, MovedGroup;
    if jobs[x].priority == jobs[target].priority {
      var i, j, k := MemberPlaces(jobs, job, target, before, x, target);
      PlaceDecides(jobs, job, target, before, i, k);
    } else {
      NewJob(jobs, job, target, before, x);
      NewJob(jobs, job, target, before, job);
    }
  }

  /** ... and right before everything after it. */
  lemma LaterThanMoved(jobs: map<JobId, Job>, job: JobId, target: JobId, before: bool, x: JobId)
    requires Distinct(JobKeys(jobs)) && CanMove(jobs, job, target) && x in jobs && x != job
    requires JobKey(jobs[target]).Less(JobKey(jobs[x])) || (x == target && before)
    ensures var jobs' := Moved(jobs, job, target, before);
            job in jobs' && x in jobs' && JobKey(jobs'[job]).Less(JobKey(jobs'[x]))
  {
    hide Moved, MovedGroup;
    if jobs[x].priority == jobs[target].priority {
      var i, j, k := MemberPlaces(jobs, job, target, before, x, target);
      PlaceDecides(jobs, job, target, before, k, i);
    } else {
      NewJob(jobs, job, target, before, x);
      NewJob(jobs, job, target, before, job);
    }
  }

  /** moveJob is a list splice on the whole display order: the moved job leaves its place and
      reappears next to the target, and no two other jobs of any group change places. */
  lemma MoveIsSplice(jobs: map<JobId, Job>, job: JobId, target: JobId, before: bool)
    requires Distinct(JobKeys(jobs)) && CanMove(jobs, job, target)
    ensures var jobs' := Moved(jobs, job, target, before);
            && Distinct(JobKeys(jobs'))
            && target in Without(Sorted(JobKeys(jobs)), job)
            && Sorted(JobKeys(jobs')) == InsertBeside(Without(Sorted(JobKeys(jobs)), job), target, job, before)
  {
    var keys := JobKeys(jobs);
    var rest := Without(Sorted(keys), job);
    WithoutKeepsOrder(Sorted(keys), keys, job);
    assert target in rest;
    var keys' := JobKeys(Moved(jobs, job, target, before));
    var s := InsertBeside(rest, target, job, before);
    SpliceIsSorted(jobs, job, target, before, rest);
    ListedKeysDistinct(s, keys');
    SortedIsUnique(s, Sorted(keys'), keys');
  }

  /** In the list that is shown after a move, the job stands right before the target, or right after it. It has the
      target's priority, and no other job's priority has changed. */
  lemma MovedNextToTarget(jobs: map<JobId, Job>, job: JobId, target: JobId, before: bool) returns (i: nat)
    requires Distinct(JobKeys(jobs)) && CanMove(jobs, job, target)
    ensures var jobs' := Moved(jobs, job, target, before);
            && Distinct(JobKeys(jobs'))
            && var list := Sorted(JobKeys(jobs'));
            && i < |list| && list[i] == job
            && (before ==> i + 1 < |list| && list[i + 1] == target)
            && (!before ==> i > 0 && list[i - 1] == target)
    ensures var jobs' := Moved(jobs, job, target, before);
            && jobs'.Keys == jobs.Keys && jobs'[job].priority == jobs[target].priority
            && forall x :: x in jobs && x != job ==> jobs'[x].priority == jobs[x].priority
  {
    hide Moved, InsertBeside, Without, Sorted, IndexOf;
    MoveIsSplice(jobs, job, target, before);
    var s := Without(Sorted(JobKeys(jobs)), job);
    i := if before then IndexOf(s, target) else IndexOf(s, target) + 1;
    InsertPlaces(s, target, job, before, i);
    PrioritiesAfter(jobs, job, target, before);
  }

  lemma PrioritiesAfter(jobs: map<JobId, Job>, job: JobId, target: JobId, before: bool)
    requires Distinct(JobKeys(jobs)) && CanMove(jobs, job, target)
    ensures var jobs' := Moved(jobs, job, target, before);
            && jobs'.Keys == jobs.Keys && jobs'[job].priority == jobs[target].priority
            && forall x :: x in jobs && x != job ==> jobs'[x].priority == jobs[x].priority
  {
    hide Moved, MovedGroup, IndexOf;
    SameJobs(jobs, job, target, before);
    NewJob(jobs, job, target, before, job);
    forall x | x in jobs && x != job
      ensures Moved(jobs, job, target, before)[x].priority == jobs[x].priority
    {
      NewJob(jobs, job, target, before, x);
    }
  }

  lemma SameJobs(jobs: map<JobId, Job>, job: JobId, target: JobId, before: bool)
    requires Distinct(JobKeys(jobs)) && CanMove(jobs, job, target)
    ensures Moved(jobs, job, target, before).Keys == jobs.Keys
  {
  }

  lemma SpliceIsSorted(jobs: map<JobId, Job>, job: JobId, target: JobId, before: bool, rest: seq<JobId>)
    requires Distinct(JobKeys(jobs)) && CanMove(jobs, job, target)
    requires Lists(rest, JobKeys(jobs) - {job}) && target in rest
    ensures Lists(InsertBeside(rest, target, job, before), JobKeys(Moved(jobs, job, target, before)))
  {
    hide Moved, InsertBeside, IndexOf, Key.Less;
    var c := IndexOf(rest, target);
    var k := if before then c else c + 1;
    var s := InsertBeside(rest, target, job, before);
    var jobs' := Moved(jobs, job, target, before);
    InsertPlaces(rest, target, job, before, k);
    var keys, keys' := JobKeys(jobs) - {job}, JobKeys(jobs');
    SameJobs(jobs, job, target, before);
    assert forall x :: x in s <==> x in keys';
    forall i, j | 0 <= i < j < |s|
      ensures s[i] in keys' && s[j] in keys' && keys'[s[i]].Less(keys'[s[j]])
    {
      assert s[i] == if i < k then rest[i] else if i == k then job else rest[i - 1];
      assert s[j] == if j < k then rest[j] else if j == k then job else rest[j - 1];
      SplicedPair(jobs, job, target, before, rest, c, k, i, j);
    }
  }

  lemma SplicedPair(jobs: map<JobId, Job>, job: JobId, target: JobId, before: bool, rest: seq<JobId>, c: nat, k: nat, i: nat, j: nat)
    requires Distinct(JobKeys(jobs)) && CanMove(jobs, job, target)
    requires Lists(rest, JobKeys(jobs) - {job}) && c < |rest| && rest[c] == target && k == if before then c else c + 1
    requires i < j <= |rest|
    ensures var x := if i < k then rest[i] else if i == k then job else rest[i - 1];
            var y := if j < k then rest[j] else if j == k then job else rest[j - 1];
            var jobs' := Moved(jobs, job, target, before);
            x in jobs' && y in jobs' && JobKey(jobs'[x]).Less(JobKey(jobs'[y]))
  {
    var keys := JobKeys(jobs) - {job};
    if j == k {
      EarlierIffLess(rest, keys, i, c);
      EarlierThanMoved(jobs, job, target, before, rest[i]);
    } else if i == k {
      EarlierIffLess(rest, keys, c, j - 1);
      LaterThanMoved(jobs, job, target, before, rest[j - 1]);
    } else {
      var a, b := if i < k then i else i - 1, if j < k then j else j - 1;
      EarlierIffLess(rest, keys, a, b);
      OthersKeepOrder(jobs, job, target, before, rest[a], rest[b]);
    }
  }
}
