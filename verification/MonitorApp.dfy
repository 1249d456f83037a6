/** The node's application object: edits and reports, whether it leads or works. */
module MonitorApp {
  import opened Wrappers
  import opened ChunkPlan
  import opened FarmTables
  import opened TableInvariants
  import opened FrameTracking
  import opened DatabaseManager
  import opened ReportLink
  import opened DispatchManager

  datatype EditCode = Applied | InvalidManifest | JobNotFound

  datatype RenderState = Rendered | RenderFailed | Abandoned

  datatype PendingReport = PendingReport(job: JobId, range: Range, state: RenderState, epoch: int)

  lemma LastWriteWins(jobs: map<JobId, Job>, job: JobId, first: Job, second: Job)
    ensures jobs[job := first][job := second] == jobs[job := second]
  {
  }

  lemma ActivatedWithRows(t: Tables, job: JobId, rows: seq<Chunk>)
    ensures WithStatus(Inserted(t, rows), job, Active) == Inserted(WithStatus(t, job, Active), rows)
  {
  }

  class App {
    const db: Database
    const nodeId: NodeId
    var leads: bool
    var pendingReports: seq<PendingReport>
    var pendingFrames: seq<FrameReport>

    constructor (db: Database, nodeId: NodeId)
      ensures this.db == db && this.nodeId == nodeId && !leads && pendingReports == [] && pendingFrames == []
    {
      this.db, this.nodeId := db, nodeId;
      leads, pendingReports, pendingFrames := false, [], [];
    }

    // ---- Editing, on the leader ----

    /** Several statements, one atomic edit. The epoch is bumped before anything is withdrawn. */
    method ApplyEditLocally(job: JobId, manifestJob: JobId, manifest: Manifest, mode: EditMode, priority: int) returns (code: EditCode)
      modifies db
      ensures code == if manifest.plan.None? || manifestJob != job then InvalidManifest
                      else if job !in old(db.jobs) then JobNotFound else Applied
      ensures db.View() == if code == Applied then Edited(old(db.View()), job, manifest, mode, priority) else old(db.View())
    {
      hide Inserted, PlannedChunks, AllWithdrawn, OfOthers;
      if manifest.plan.None? {
        return InvalidManifest;
      }
      if manifestJob != job {
        return InvalidManifest;
      }
      if job !in db.jobs {
        return JobNotFound;
      }
      ghost var t, was := db.View(), db.jobs[job];
      ghost var kept := was.(manifest := manifest, priority := priority, sortKey := was.submittedAt);
      LastWriteWins(t.jobs, job, Reprioritized(was, priority), kept);
      LastWriteWins(t.jobs, job, kept, kept.(epoch := was.epoch + 1, status := Active));
      var _ := db.UpdateJobPriority(job, priority);
      var _ := db.UpdateJobManifest(job, manifest);
      if mode == Restart || mode == StartOver {
        RestartJob(job, manifest, mode);
      }
      return Applied;
    }

    method RestartJob(job: JobId, manifest: Manifest, mode: EditMode)
      requires manifest.plan.Some? && job in db.jobs && mode != Continue
      modifies db
      ensures var was, j := old(db.View()), old(db.jobs)[job];
              var bumped := was.(jobs := was.jobs[job := j.(epoch := j.epoch + 1, status := Active)]);
              db.View() ==
              if mode == Restart then bumped.(chunks := AllWithdrawn(was.chunks, job))
              else Inserted(bumped.(chunks := OfOthers(was.chunks, job)),
                            PlannedChunks(job, manifest.plan.value))
    {
      hide Inserted, Chunks, FreshChunks, AllWithdrawn, OfOthers;
      ghost var was, j := db.View(), db.jobs[job];
      LastWriteWins(was.jobs, job, j.(epoch := j.epoch + 1), j.(epoch := j.epoch + 1, status := Active));
      var _ := db.BumpEditEpoch(job);
      if mode == Restart {
        db.ResetAssignedChunks(job);
      } else {
        var p := manifest.plan.value;
        var ranges := ComputeChunks(p.first, p.last, p.size);
        db.RebuildChunks(job, ranges);
        ActivatedWithRows(was.(jobs := was.jobs[job := j.(epoch := j.epoch + 1)],
                               chunks := OfOthers(was.chunks, job)),
                          job, FreshChunks(job, ranges));
      }
      var _ := db.UpdateJobState(job, Active);
    }

    method RequeueJob(job: JobId)
      modifies db
      ensures db.View() == Apply(old(db.View()), RequeueAll(job))
    {
      db.ResetAllChunks(job);
      var _ := db.UpdateJobState(job, Active);
    }

    // ---- Reporting ----

    /** The leader writes its own reports to the database at once; a worker buffers them. An abandoned
        render is reported to nobody. */
    method ReportCompletion(job: JobId, range: Range, state: RenderState, epoch: int, now: int)
      requires Inv(db.View())
      modifies this`pendingReports, db
      ensures var r := Report(nodeId, job, range, epoch);
              db.View() == if !leads || state == Abandoned then old(db.View())
                           else if state == Rendered then Apply(old(db.View()), Complete(r, now))
                           else Apply(old(db.View()), Fail(r))
      ensures pendingReports == if leads || state == Abandoned then old(pendingReports)
                                else old(pendingReports) + [PendingReport(job, range, state, epoch)]
    {
      if state == Abandoned {
        return;
      }
      if leads {
        var r := Report(nodeId, job, range, epoch);
        if state == Rendered {
          var _ := db.CompleteChunk(r, now);
        } else {
          var maxRetries := DEFAULT_MAX_RETRIES;
          if job in db.jobs && db.jobs[job].manifest.plan.Some? {
            maxRetries := db.jobs[job].manifest.plan.value.maxRetries;
          }
          var _ := db.FailChunk(r, maxRetries);
        }
      } else {
        pendingReports := pendingReports + [PendingReport(job, range, state, epoch)];
      }
    }

    method ReportFrameCompletion(job: JobId, frame: int, epoch: int)
      requires Inv(db.View())
      modifies this`pendingFrames, db
      ensures db.View() == if leads then Apply(old(db.View()), AddFrames(job, epoch, [frame])) else old(db.View())
      ensures pendingFrames == if leads then old(pendingFrames) else old(pendingFrames) + [FrameReport(job, frame, epoch)]
    {
      if leads {
        var current := db.IsJobEpochCurrent(job, epoch);
        if current {
          var _ := db.AddCompletedFrame(job, frame);
          assert (set f | f in [frame]) == {frame};
        }
      } else {
        pendingFrames := pendingFrames + [FrameReport(job, frame, epoch)];
      }
    }

    // ---- Flushing ----

    /** Take the batch, post it in order up to the first failure, put the rest back in front of
        what arrived meanwhile. `outcomes` is what the network does to each POST. */
    method FlushCompletionReports(leaderKnown: bool, outcomes: seq<Outcome>, arrivals: seq<PendingReport>)
      returns (posted: seq<PendingReport>, anyFailed: bool)
      requires |outcomes| == |pendingReports|
      modifies this`pendingReports
      ensures var k := AnsweredPrefix(outcomes); var batch := old(pendingReports);
              if batch == [] || !leaderKnown
              then pendingReports == batch + arrivals && posted == [] && !anyFailed
              else && pendingReports == batch[k..] + arrivals
                   && posted == (if k < |batch| then batch[..k + 1] else batch)
                   && (anyFailed <==> k < |batch|)
    {
      hide AnsweredPrefix;
      posted, anyFailed := [], false;
      if pendingReports == [] {
        pendingReports := pendingReports + arrivals;
        return;
      }
      var batch := pendingReports;
      pendingReports := [];
      pendingReports := pendingReports + arrivals;
      if !leaderKnown {
        pendingReports := batch + pendingReports;
        return;
      }
      var unsent: seq<PendingReport> := [];
      ghost var k := AnsweredPrefix(outcomes);
      for i := 0 to |batch|
        invariant pendingReports == arrivals
        invariant anyFailed <==> k < i
        invariant posted == if k < i then batch[..k + 1] else batch[..i]
        invariant unsent == if k < i then batch[k..i] else []
      {
        assert batch[..i + 1] == batch[..i] + [batch[i]];
        if anyFailed {
          assert batch[k..i + 1] == batch[k..i] + [batch[i]];
          unsent := unsent + [batch[i]];
        } else {
          posted := posted + [batch[i]];
          if !Answered(outcomes[i]) {
            anyFailed := true;
            unsent := unsent + [batch[i]];
          }
        }
      }
      assert batch[..|batch|] == batch;
      if unsent != [] {
        pendingReports := unsent + pendingReports;
      }
    }

    /** Frames go out in one POST per job and epoch; unless every one is answered the whole batch
        is kept. */
    method FlushFrameReports(leaderKnown: bool, answered: map<(JobId, int), bool>, arrivals: seq<FrameReport>)
      returns (posted: Groups, failed: bool)
      requires forall fr :: fr in pendingFrames ==> (fr.job, fr.epoch) in answered
      modifies this`pendingFrames
      ensures var batch := old(pendingFrames);
              if batch == [] || !leaderKnown
              then pendingFrames == batch + arrivals && posted == map[] && !failed
              else && Grouped(posted, batch)
                   && (failed <==> exists fr :: fr in batch && !answered[(fr.job, fr.epoch)])
                   && pendingFrames == (if failed then batch else []) + arrivals
    {
      hide Grouped;
      posted, failed := map[], false;
      if pendingFrames == [] {
        pendingFrames := pendingFrames + arrivals;
        return;
      }
      var batch := pendingFrames;
      pendingFrames := [];
      pendingFrames := pendingFrames + arrivals;
      if !leaderKnown {
        pendingFrames := batch + pendingFrames;
        return;
      }
      posted := ByJobAndEpoch(batch);
      SomeReportPerGroup(posted, batch, answered);
      var allSent := true;
      var left := posted.Keys;
      while left != {}
        invariant left <= posted.Keys && pendingFrames == arrivals
        invariant allSent <==> forall k :: k in posted.Keys - left ==> answered[k]
        decreases |left|
      {
        var key :| key in left;
        if !answered[key] {
          allSent := false;
        }
        left := left - {key};
      }
      if !allSent {
        pendingFrames := batch + pendingFrames;
      }
      failed := !allSent;
    }

    /** One POST per job and epoch. */
    method ByJobAndEpoch(batch: seq<FrameReport>) returns (groups: Groups)
      ensures Grouped(groups, batch) && NoEmptyGroup(groups, batch)
    {
      groups := map[];
      for i := 0 to |batch|
        invariant Grouped(groups, batch[..i]) && NoEmptyGroup(groups, batch[..i])
      {
        var key := (batch[i].job, batch[i].epoch);
        groups := groups[key := (if key in groups then groups[key] else []) + [batch[i].frame]];
        assert batch[..i + 1] == batch[..i] + [batch[i]];
        assert batch[i] in batch[..i + 1];
      }
      assert batch[..|batch|] == batch;
    }
  }

  ghost predicate NoEmptyGroup(groups: Groups, batch: seq<FrameReport>) {
    forall k :: k in groups ==> exists fr :: fr in batch && k == (fr.job, fr.epoch)
  }

  lemma SomeReportPerGroup(groups: Groups, batch: seq<FrameReport>, answered: map<(JobId, int), bool>)
    requires Grouped(groups, batch) && NoEmptyGroup(groups, batch)
    requires forall fr :: fr in batch ==> (fr.job, fr.epoch) in answered
    ensures groups.Keys <= answered.Keys
    ensures (exists fr :: fr in batch && !answered[(fr.job, fr.epoch)]) <==> exists k :: k in groups && !answered[k]
  {
  }

  function Makes(reports: seq<PendingReport>): seq<Event<PendingReport>> {
    seq(|reports|, i requires 0 <= i < |reports| => Make(reports[i]))
  }

  lemma {:induction false} MakesAppend(l: Link<PendingReport>, reports: seq<PendingReport>)
    ensures After(l, Makes(reports)) == Link(l.made + reports, l.buffer + reports, l.received)
    decreases |reports|
  {
    if reports != [] {
      assert Makes(reports)[1..] == Makes(reports[1..]);
      MakesAppend(Next(l, Make(reports[0])), reports[1..]);
      assert l.made + reports == l.made + [reports[0]] + reports[1..];
      assert l.buffer + reports == l.buffer + [reports[0]] + reports[1..];
    } else {
      assert l.made + [] == l.made && l.buffer + [] == l.buffer;
    }
  }

  /** A flush that overlaps with new reports leaves the buffer, and shows the leader the reports,
      that the delivery history of ReportLink describes. */
  lemma FlushRefines(l: Link<PendingReport>, outcomes: seq<Outcome>, arrivals: seq<PendingReport>)
    requires |outcomes| == |l.buffer|
    ensures var k := AnsweredPrefix(outcomes); var l' := After(l, [Flush(outcomes)] + Makes(arrivals));
            && l'.buffer == l.buffer[k..] + arrivals
            && l'.received == l.received + (if k < |outcomes| && Reached(outcomes[k]) then l.buffer[..k + 1] else l.buffer[..k])
  {
    var k := AnsweredPrefix(outcomes);
    assert ([Flush(outcomes)] + Makes(arrivals))[1..] == Makes(arrivals);
    MakesAppend(Next(l, Flush(outcomes)), arrivals);
    if k < |outcomes| { assert l.buffer[..k + 1] == l.buffer[..k] + [l.buffer[k]]; }
  }
}
