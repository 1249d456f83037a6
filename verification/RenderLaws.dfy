/** What the render coordinator does when, in seconds and in the places where its dispatches are. */
module RenderLaws {
  import opened Wrappers
  import opened Delivery
  import ChunkPlan
  import opened RenderCoordinator

  // ---- Held chunks ----

  /** What an update does with a held chunk. Of a deleted job: it is dropped, and nothing is copied. Within half a
      minute of the last try: nothing. Otherwise it is tried, and reported completed if every listed file was copied;
      if not, it is reported failed when ten minutes have passed since it was finished, and else held on. */
  lemma RetryLaw(s: State, h: Held, now: int, a: Attempt)
    requires h.last <= now
    ensures var (s', kept) := Retried(s, h, now, a); var d := h.dispatch;
            var copied := a.reachable && forall n :: n in FilesIn(s, StagingOf(d)) && n in a.listed ==> n !in a.failing;
            if d.job in s.deleted then
              kept == None && s' == s.(dropped := s.dropped + [d])
            else if now - h.last < 30000 then
              kept == Some(h) && s' == s
            else if copied then
              kept == None && s'.reported == s.reported + [Callback(d, Completed)] && s' == s.(disk := s'.disk, reported := s'.reported)
            else if now - h.first >= 600000 then
              kept == None && s'.reported == s.reported + [Callback(d, Failed)] && s' == s.(disk := s'.disk, reported := s'.reported)
            else
              kept == Some(Held(d, h.first, now, h.tries + 1)) && s' == s.(disk := s'.disk)
  {
  }

  /** What an attempt does to the files: the listed files whose copies do not fail are at the output directory - if
      it can be reached - over whatever was there, and all else there stays. The staging directory is cleared, up to
      what cannot be removed, only after every listed file was copied. No other directory changes. */
  lemma AttemptLaw(s: State, d: Dispatch, a: Attempt, dir: Dir, n: Name)
    ensures var s' := Delivering(s, d, a); var staged, out := Staging(d.job, d.range), Output(d.outputDir.GetOr(""));
            var copies := a.reachable && n in FilesIn(s, staged) && n in a.listed && n !in a.failing;
            var allCopied := a.reachable && forall m :: m in FilesIn(s, staged) && m in a.listed ==> m !in a.failing;
            && (dir != staged && dir != out ==> FilesIn(s', dir) == FilesIn(s, dir))
            && (n in FilesIn(s', out) <==> copies || n in FilesIn(s, out))
            && (copies ==> FilesIn(s', out)[n] == FilesIn(s, staged)[n])
            && (!copies && n in FilesIn(s, out) ==> FilesIn(s', out)[n] == FilesIn(s, out)[n])
            && (n in FilesIn(s', staged) <==> n in FilesIn(s, staged) && (allCopied ==> n in a.leftover))
            && (n in FilesIn(s', staged) ==> FilesIn(s', staged)[n] == FilesIn(s, staged)[n])
  {
  }

  /** When the agent finishes: a render that was not staged is reported completed; a staged one as well if its files
      could be copied, and otherwise it is held, finished now and tried now, with no retry counted. */
  lemma FinishLaw(s: State, now: int, a: Attempt)
    ensures var s' := Next(s, AgentCompleted(now, a));
            && (s.active.None? ==> s' == s)
            && (s.active.Some? ==>
                  && var d, staged := s.active.value.dispatch, s.active.value.staged;
                  && var copied := a.reachable && forall n :: n in FilesIn(s, StagingOf(d)) && n in a.listed ==> n !in a.failing;
                  && s'.active == None
                  && s' == s.(active := None, disk := s'.disk, reported := s'.reported, held := s'.held)
                  && (if staged && !copied
                      then s'.reported == s.reported && s'.held == s.held + [Held(d, now, now, 0)]
                      else s'.reported == s.reported + [Callback(d, Completed)] && s'.held == s.held)
                  && (!staged ==> s'.disk == s.disk))
  {
  }

  // ---- The active render ----

  /** During a render only a lost pipe can end it from this side: when the agent's process has died, or when the pipe
      has been lost for half a minute. A pipe that returns sets the clock back. */
  lemma WatchLaw(s: State, now: int, w: World)
    requires s.active.Some? && (s.grace ==> s.graceStart <= now)
    ensures var s' := Dequeued(s, now, w); var since := if s.grace then s.graceStart else now;
            if w.stillConnected then s' == s.(grace := false)
            else if !w.processAlive || now - since >= 30000
            then s' == s.(active := None, grace := false, graceStart := since,
                          reported := s.reported + [Callback(s.active.value.dispatch, Failed)])
            else s' == s.(grace := true, graceStart := since)
  {
  }

  /** An abort, or the agent's word that it failed, ends the active render as failed; abandoning it ends it as
      abandoned. Without one, nothing happens. */
  lemma EndLaw(s: State)
    ensures s.active.None? ==> Next(s, Abort) == s && Next(s, AgentFailed) == s && Next(s, Abandon) == s
    ensures s.active.Some? ==>
              var ended := s.(active := None, grace := false);
              && Next(s, Abort) == Next(s, AgentFailed) == ended.(reported := s.reported + [Callback(s.active.value.dispatch, Failed)])
              && Next(s, Abandon) == ended.(reported := s.reported + [Callback(s.active.value.dispatch, Abandoned)])
  {
  }

  // ---- The queue ----

  /** The coordinator begins with the first dispatch in the queue when it has no active render - but leaves the queue
      alone for two seconds after it has put a dispatch back. With rendering stopped, the dispatch is reported
      abandoned. */
  lemma BeginLaw(s: State, now: int, w: World)
    requires s.active.None?
    ensures var s' := Dequeued(s, now, w);
            && (s.queue == [] || (s.requeuing && now - s.lastRequeue < 2000) ==> s' == s)
            && (s.queue != [] && !(s.requeuing && now - s.lastRequeue < 2000) ==>
                  && var d, rest := s.queue[0], s.(queue := s.queue[1..]);
                  && (s.stopped ==> s' == rest.(reported := s.reported + [Callback(d, Abandoned)]))
                  && (!s.stopped && w.connected && w.stillConnected ==>
                        s' == rest.(requeuing := false, grace := false,
                                    active := Some(Active(d, s.staging && d.outputDir.Some? && d.outputDir.value != "" && w.stagingMade))))
                  && (!s.stopped && w.connected && !w.stillConnected && w.processAlive ==>
                        s' == rest.(requeuing := false, grace := true, graceStart := now,
                                    active := Some(Active(d, s.staging && d.outputDir.Some? && d.outputDir.value != "" && w.stagingMade))))
                  && (!s.stopped && w.connected && !w.stillConnected && !w.processAlive ==>
                        s' == rest.(requeuing := false, grace := false, graceStart := now, reported := s.reported + [Callback(d, Failed)])))
  {
  }

  /** Without the agent the dispatch goes to the back of the queue, for ten seconds from the first time; an agent that
      cannot be started, or has not come by then, fails it. */
  lemma WaitLaw(s: State, now: int, w: World)
    requires s.active.None? && s.queue != [] && !s.stopped && !w.connected
    requires s.requeuing ==> now - s.lastRequeue >= 2000 && s.requeueStart <= now
    ensures var s' := Dequeued(s, now, w); var d, rest := s.queue[0], s.queue[1..]; var since := if s.requeuing then s.requeueStart else now;
            if (if s.requeuing then now - since >= 10000 else !w.spawned)
            then && s'.queue == rest && s'.reported == s.reported + [Callback(d, Failed)] && !s'.requeuing && s'.active == None
            else && s'.queue == rest + [d] && s'.reported == s.reported && s'.requeuing && s'.requeueStart == since && s'.lastRequeue == now
                 && s'.active == None
  {
  }

  /** Purging a job keeps exactly the dispatches of other jobs, in their order: what is kept stood at increasing places,
      and every place of another job is among them. */
  ghost predicate KeptAt(q: seq<Dispatch>, job: JobId, kept: seq<Dispatch>, places: seq<nat>) {
    && |places| == |kept|
    && (forall p :: 0 <= p < |places| ==> places[p] < |q| && kept[p] == q[places[p]] && q[places[p]].job != job)
    && (forall p, r :: 0 <= p < r < |places| ==> places[p] < places[r])
    && (forall i :: 0 <= i < |q| && q[i].job != job ==> i in places)
  }

  lemma {:induction false} PurgeLaw(q: seq<Dispatch>, job: JobId) returns (places: seq<nat>)
    ensures KeptAt(q, job, NotOfJob(q, job), places)
    decreases |q|
  {
    hide NotOfJob, KeptAt;
    if q == [] {
      places := [];
      NothingKept(job);
    } else {
      var n := |q| - 1;
      var before := PurgeLaw(q[..n], job);
      places := if q[n].job != job then before + [n] else before;
      OneMoreKept(q[..n], job, before, NotOfJob(q[..n], job), q[n]);
      NotOfJobSnoc(q[..n], job, q[n]);
      assert q == q[..n] + [q[n]];
    }
  }

  lemma NothingKept(job: JobId)
    ensures KeptAt([], job, NotOfJob([], job), [])
  {
  }

  lemma OneMoreKept(q: seq<Dispatch>, job: JobId, places: seq<nat>, kept: seq<Dispatch>, d: Dispatch)
    requires KeptAt(q, job, kept, places)
    ensures KeptAt(q + [d], job, if d.job != job then kept + [d] else kept, if d.job != job then places + [|q|] else places)
  {
    var q', after, kept' := q + [d], if d.job != job then places + [|q|] else places, if d.job != job then kept + [d] else kept;
    assert forall i :: 0 <= i < |q| ==> q'[i] == q[i];
    forall i | 0 <= i < |q'| && q'[i].job != job
      ensures i in after
    {
      if i == |q| {
        assert after[|places|] == |q|;
      } else {
        assert q[i].job != job && i in places;
      }
    }
    forall p | 0 <= p < |after|
      ensures after[p] < |q'| && kept'[p] == q'[after[p]] && q'[after[p]].job != job
    {
      if p < |places| { assert after[p] == places[p] && kept'[p] == kept[p]; }
    }
    forall p, r | 0 <= p < r < |after|
      ensures after[p] < after[r]
    {
      assert after[p] == places[p];
    }
  }

  lemma {:induction false} NotOfJobSnoc(q: seq<Dispatch>, job: JobId, d: Dispatch)
    ensures NotOfJob(q + [d], job) == if d.job != job then NotOfJob(q, job) + [d] else NotOfJob(q, job)
    decreases |q|
  {
    if q == [] {
      assert q + [d] == [d];
    } else {
      assert (q + [d])[1..] == q[1..] + [d];
      NotOfJobSnoc(q[1..], job, d);
    }
  }

  /** Those of the job are what is dropped. */
  lemma {:induction false} PurgedLaw(q: seq<Dispatch>, job: JobId)
    ensures forall d :: d in OfJob(q, job) <==> d in q && d.job == job
    decreases |q|
  {
    if q != [] {
      PurgedLaw(q[1..], job);
      assert q == [q[0]] + q[1..];
    }
  }

  /** An arrival goes to the back of the queue and is counted; the other orders set one switch each. */
  lemma OrdersLaw(s: State, job: JobId, range: ChunkPlan.Range, epoch: int, out: Option<string>, on: bool)
    ensures var d := Dispatch(|s.accepted|, job, range, epoch, out);
            Next(s, Queue(job, range, epoch, out)) == s.(queue := s.queue + [d], accepted := s.accepted + [d])
    ensures Next(s, MarkDeleted(job)) == s.(deleted := s.deleted + {job})
    ensures Next(s, SetStopped(on)) == s.(stopped := on) && Next(s, SetStaging(on)) == s.(staging := on)
    ensures Next(s, Purge(job)) == s.(queue := NotOfJob(s.queue, job), dropped := s.dropped + OfJob(s.queue, job))
  {
  }
}
