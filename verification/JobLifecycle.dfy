/** A job that is over has no work left in it. */
module JobLifecycle {
  import opened Wrappers
  import opened ChunkPlan
  import opened FarmTables
  import opened TableInvariants
  import opened EditFence

  predicate IsOver(t: Tables, job: JobId) { job in t.jobs && t.jobs[job].status in {Finished, Broken} }

  /** No chunk of a finished or broken job is pending or in flight. */
  ghost predicate OverMeansClosed(t: Tables) {
    forall id :: id in t.chunks && IsOver(t, t.chunks[id].job) ==> !IsOpen(t.chunks[id])
  }

  /** A revert that reaches a job that is over, or a chunk of such a job handed to a node by hand. */
  predicate ReopensQuietly(t: Tables, s: Step) {
    || (s.Revert? && IsOver(t, s.job)
        && exists id | id in t.chunks :: t.chunks[id].job == s.job && t.chunks[id].range == s.range)
    || (s.Reassign? && s.node != "" && s.id in t.chunks && Reassignable(t.chunks[s.id]) && IsOver(t, t.chunks[s.id].job))
  }

  ghost predicate NeverReopensQuietly(t: Tables, steps: seq<Step>)
    decreases |steps|
  {
    steps == [] || (!ReopensQuietly(t, steps[0]) && NeverReopensQuietly(Apply(t, steps[0]), steps[1..]))
  }

  /** One step keeps finished jobs closed exactly when it is neither. */
  lemma OverStep(t: Tables, s: Step)
    requires Inv(t) && OverMeansClosed(t)
    ensures OverMeansClosed(Apply(t, s)) <==> !ReopensQuietly(t, s)
  {
    match s {
      case Submit(_, _, _, _) => SubmitClosed(t, s);
      case Resubmit(_, _, _) => ResubmitClosed(t, s);
      case Edit(_, _, _, _) => EditClosed(t, s);
      case Fail(_) => FailClosed(t, s);
      case Revert(_, _) => RevertClosed(t, s);
      case Reassign(_, _, _) => ReassignClosed(t, s);
      case Assign(_, _, _, _) => RowStepClosed(t, s);
      case Stop(_) => RowStepClosed(t, s);
      case RetryFailed(_) => ReactivationClosed(t, s);
      case RequeueAll(_) => ReactivationClosed(t, s);
      case CheckCompletion(_) => CheckClosed(t, s);
      case _ => PlainStepClosed(t, s);
    }
  }

  lemma SubmitClosed(t: Tables, s: Step)
    requires Inv(t) && OverMeansClosed(t) && s.Submit?
    ensures OverMeansClosed(Apply(t, s))
  {
  }

  lemma ResubmitClosed(t: Tables, s: Step)
    requires Inv(t) && OverMeansClosed(t) && s.Resubmit?
    ensures OverMeansClosed(Apply(t, s))
  {
    if CanResubmit(t, s.source) && s.job !in t.jobs {
      var rows := CopiedChunks(t, s.source, s.job, s.at);
      CopiedRowsInsertable(t, s.source, s.job, s.at);
      SubmittedRows(t, s.job, t.jobs[s.source].manifest, t.jobs[s.source].priority, s.at, rows);
    }
  }

  lemma EditClosed(t: Tables, s: Step)
    requires Inv(t) && OverMeansClosed(t) && s.Edit?
    ensures OverMeansClosed(Apply(t, s))
  {
    var t' := Apply(t, s);
    forall id | id in t'.chunks && IsOver(t', t'.chunks[id].job)
      ensures !IsOpen(t'.chunks[id])
    {
      if t' != t && s.mode == StartOver {
        assert t'.chunks[id].job == s.job || id in t.chunks;
      }
    }
  }

  lemma FailClosed(t: Tables, s: Step)
    requires Inv(t) && OverMeansClosed(t) && s.Fail?
    ensures OverMeansClosed(Apply(t, s))
  {
  }

  lemma RevertClosed(t: Tables, s: Step)
    requires Inv(t) && OverMeansClosed(t) && s.Revert?
    ensures OverMeansClosed(Apply(t, s)) <==> !ReopensQuietly(t, s)
  {
    var t' := Apply(t, s);
    if ReopensQuietly(t, s) {
      var id :| id in t.chunks && t.chunks[id].job == s.job && t.chunks[id].range == s.range;
      assert IsOpen(t'.chunks[id]) && IsOver(t', t'.chunks[id].job);
    }
  }

  lemma ReassignClosed(t: Tables, s: Step)
    requires Inv(t) && OverMeansClosed(t) && s.Reassign?
    ensures OverMeansClosed(Apply(t, s)) <==> !ReopensQuietly(t, s)
  {
    var t' := Apply(t, s);
    if ReopensQuietly(t, s) {
      assert IsOpen(t'.chunks[s.id]) && IsOver(t', t'.chunks[s.id].job);
    }
  }

  lemma RowStepClosed(t: Tables, s: Step)
    requires Inv(t) && OverMeansClosed(t) && (s.Assign? || s.Stop?)
    ensures OverMeansClosed(Apply(t, s))
  {
  }

  lemma ReactivationClosed(t: Tables, s: Step)
    requires Inv(t) && OverMeansClosed(t) && (s.RetryFailed? || s.RequeueAll?)
    ensures OverMeansClosed(Apply(t, s))
  {
  }

  lemma CheckClosed(t: Tables, s: Step)
    requires Inv(t) && OverMeansClosed(t) && s.CheckCompletion?
    ensures OverMeansClosed(Apply(t, s))
  {
  }

  lemma PlainStepClosed(t: Tables, s: Step)
    requires Inv(t) && OverMeansClosed(t)
    requires s.Complete? || s.Reclaim? || s.AddFrames? || s.Steer? || s.Reorder? || s.Delete?
    ensures OverMeansClosed(Apply(t, s))
  {
  }

  /** Both happen: in a job whose only chunk has failed for good, and which is over for that reason, a late
      revert of the chunk, or handing it to a node by hand, leaves a job that is over with work in it. */
  lemma QuietReopenings()
    ensures var t := Run(EMPTY, LEAKING_RUN[..3] + [CheckCompletion("job")]);
            && Inv(t) && IsOver(t, "job") && OverMeansClosed(t)
            && !OverMeansClosed(Apply(t, Revert("job", LEAK_RANGE)))
            && !OverMeansClosed(Apply(t, Reassign(0, "node", 2)))
  {
    var d := FailedForGood();
    var before := LeakState(LEAK_JOB, d);
    RunConcat(EMPTY, LEAKING_RUN[..3], [CheckCompletion("job")]);
    RunCons(before, CheckCompletion("job"), []);
    assert [CheckCompletion("job")] + [] == [CheckCompletion("job")];
    EmptyIsInv();
    RunKeepsInv(EMPTY, LEAKING_RUN[..3] + [CheckCompletion("job")]);
    FailedJobIsOver(d);
    var t := Apply(before, CheckCompletion("job"));
    OverStep(t, Revert("job", LEAK_RANGE));
    OverStep(t, Reassign(0, "node", 2));
  }

  lemma FailedJobIsOver(d: Chunk)
    requires d.job == "job" && d.range == LEAK_RANGE && d.state == Failed
    ensures var t := Apply(LeakState(LEAK_JOB, d), CheckCompletion("job"));
            && IsOver(t, "job") && OverMeansClosed(t)
            && ReopensQuietly(t, Revert("job", LEAK_RANGE)) && ReopensQuietly(t, Reassign(0, "node", 2))
  {
    var before := LeakState(LEAK_JOB, d);
    assert !HasChunk(before, "job", {Pending, Assigned});
    assert 0 in before.chunks && before.chunks[0] == d;
  }

  lemma {:induction false} RunKeepsClosed(t: Tables, steps: seq<Step>)
    requires Inv(t) && OverMeansClosed(t) && NeverReopensQuietly(t, steps)
    ensures OverMeansClosed(Run(t, steps))
    decreases |steps|
  {
    if steps != [] {
      StepKeepsInv(t, steps[0]);
      OverStep(t, steps[0]);
      RunKeepsClosed(Apply(t, steps[0]), steps[1..]);
    }
  }

  /** The verdict on an active job that has nothing left to do, and on no other: it failed if and
      only if some chunk failed for good; stopped chunks neither hold it open nor fail it. */
  lemma VerdictIsExact(t: Tables, job: JobId)
    requires job in t.jobs && t.jobs[job].status == Active
    ensures var status := Apply(t, CheckCompletion(job)).jobs[job].status;
            && (status == Active <==> exists id :: id in t.chunks && t.chunks[id].job == job && IsOpen(t.chunks[id]))
            && (status == Finished <==> forall id :: id in t.chunks && t.chunks[id].job == job ==> t.chunks[id].state in {Completed, Stopped})
            && status in {Active, Finished, Broken}
  {
    if id :| id in t.chunks && t.chunks[id].job == job && IsOpen(t.chunks[id]) {
      assert HasChunk(t, job, {Pending, Assigned});
    } else if HasChunk(t, job, {Failed}) {
      var id :| id in t.chunks && t.chunks[id].job == job && t.chunks[id].state in {Failed};
    } else {
      forall id | id in t.chunks && t.chunks[id].job == job
        ensures t.chunks[id].state in {Completed, Stopped}
      {
        assert t.chunks[id].state !in {Failed};
      }
    }
  }
}
