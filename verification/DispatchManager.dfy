/** The leader's dispatch cycle: drain what came in, reclaim from dead nodes, close finished jobs,
    hand out work. Every phase is proved to be a run of the state machine. */
module DispatchManager {
  import opened Wrappers
  import opened Ordering
  import opened ChunkPlan
  import opened FarmTables
  import opened TableInvariants
  import opened FrameTracking
  import opened DatabaseManager
  import opened FailureTracker
  import StepLaws

  const DISPATCHED_ENTRY_TTL_MS := 15000

  datatype FrameReport = FrameReport(job: JobId, frame: int, epoch: int)

  datatype RevertRequest = RevertRequest(job: JobId, range: Range)

  /** A node as the leader last heard of it. `reachable` says that its endpoint parses. */
  datatype Peer = Peer(
    id: NodeId, tags: seq<Tag>, isLocal: bool, alive: bool, stopped: bool, rendering: bool,
    agentOk: bool, needsAttention: bool, ready: bool, reachable: bool)

  /** A chunk handed out in one pass, and to whom. */
  datatype Dispatch = Dispatch(node: NodeId, chunk: ChunkId, epoch: int)

  // ---- What the phases amount to ----

  function Completions(q: seq<Report>, at: int): seq<Step> {
    seq(|q|, i requires 0 <= i < |q| => Complete(q[i], at))
  }

  function Failures(q: seq<Report>): seq<Step> {
    seq(|q|, i requires 0 <= i < |q| => Fail(q[i]))
  }

  function Reverts(q: seq<RevertRequest>): seq<Step> {
    seq(|q|, i requires 0 <= i < |q| => Revert(q[i].job, q[i].range))
  }

  function FrameSteps(q: seq<FrameReport>): seq<Step> {
    seq(|q|, i requires 0 <= i < |q| => AddFrames(q[i].job, q[i].epoch, [q[i].frame]))
  }

  predicate Lost(p: Peer) { !p.isLocal && (!p.alive || p.needsAttention) }

  function Reclaims(peers: seq<Peer>): seq<Step> {
    if peers == [] then [] else (if Lost(peers[0]) then [Reclaim(peers[0].id)] else []) + Reclaims(peers[1..])
  }

  function Checks(jobs: seq<JobId>): seq<Step> {
    seq(|jobs|, i requires 0 <= i < |jobs| => CheckCompletion(jobs[i]))
  }

  /** The steps of a queue are its entries, in order of arrival. */
  lemma QueuesInOrder(completions: seq<Report>, failures: seq<Report>, reverts: seq<RevertRequest>, frames: seq<FrameReport>, at: int, i: nat)
    ensures |Completions(completions, at)| == |completions| && |Failures(failures)| == |failures|
    ensures |Reverts(reverts)| == |reverts| && |FrameSteps(frames)| == |frames|
    ensures i < |completions| ==> Completions(completions, at)[i] == Complete(completions[i], at)
    ensures i < |failures| ==> Failures(failures)[i] == Fail(failures[i])
    ensures i < |reverts| ==> Reverts(reverts)[i] == Revert(reverts[i].job, reverts[i].range)
    ensures i < |frames| ==> FrameSteps(frames)[i] == AddFrames(frames[i].job, frames[i].epoch, [frames[i].frame])
  {
  }

  lemma RunSnoc(t: Tables, steps: seq<Step>, s: Step)
    ensures Run(t, steps + [s]) == Apply(Run(t, steps), s)
  {
    RunConcat(t, steps, [s]);
    RunCons(Run(t, steps), s, []);
    assert [s] + [] == [s];
  }

  // ---- Frames by group ----

  /** The tables once every (job, frame) pair is recorded. */
  function RecordedAll(t: Tables, pairs: set<(JobId, int)>): Tables {
    t.(chunks := map id | id in t.chunks :: WithFrames(t.chunks[id], t.chunks[id].job, FramesOf(pairs, t.chunks[id].job)))
  }

  function FramesOf(pairs: set<(JobId, int)>, job: JobId): set<int> {
    set p | p in pairs && p.0 == job :: p.1
  }

  lemma RecordedMore(t: Tables, pairs: set<(JobId, int)>, job: JobId, batch: set<int>)
    requires Inv(t)
    ensures Recorded(RecordedAll(t, pairs), job, batch) == RecordedAll(t, pairs + set f | f in batch :: (job, f))
  {
    var more := pairs + set f | f in batch :: (job, f);
    forall id | id in t.chunks
      ensures WithFrames(RecordedAll(t, pairs).chunks[id], job, batch) == RecordedAll(t, more).chunks[id]
    {
      var c := t.chunks[id];
      if c.job == job {
        RowAbsorbs(c, job, FramesOf(pairs, job), batch);
        assert FramesOf(more, job) == FramesOf(pairs, job) + batch by {
          forall f | f in FramesOf(pairs, job) + batch
            ensures f in FramesOf(more, job)
          {
            assert (job, f) in more;
          }
        }
      } else {
        assert FramesOf(more, c.job) == FramesOf(pairs, c.job) by {
          forall f | f in FramesOf(pairs, c.job)
            ensures f in FramesOf(more, c.job)
          {
            assert (c.job, f) in more;
          }
        }
      }
    }
    assert Recorded(RecordedAll(t, pairs), job, batch).chunks == RecordedAll(t, more).chunks;
  }

  lemma RecordedNothing(t: Tables)
    requires Inv(t)
    ensures RecordedAll(t, {}) == t
  {
    forall id | id in t.chunks
      ensures WithFrames(t.chunks[id], t.chunks[id].job, FramesOf({}, t.chunks[id].job)) == t.chunks[id]
    {
      assert FramesOf({}, t.chunks[id].job) == {};
      FramesAreUnion(t.chunks[id], {}, t.chunks[id].frames);
    }
    assert RecordedAll(t, {}).chunks == t.chunks;
  }

  /** The frames of a queue that the fence lets through. */
  function Admitted(t: Tables, q: seq<FrameReport>): set<(JobId, int)> {
    set fr | fr in q && EpochCurrent(t, fr.job, fr.epoch) :: (fr.job, fr.frame)
  }

  lemma AdmittedSnoc(t: Tables, q: seq<FrameReport>, fr: FrameReport)
    ensures Admitted(t, q + [fr]) == Admitted(t, q) + if EpochCurrent(t, fr.job, fr.epoch) then {(fr.job, fr.frame)} else {}
  {
    hide EpochCurrent;
  }

  /** One more frame report, on top of those recorded already. */
  lemma FrameAfter(t: Tables, pairs: set<(JobId, int)>, fr: FrameReport)
    requires Inv(t)
    ensures Apply(RecordedAll(t, pairs), AddFrames(fr.job, fr.epoch, [fr.frame]))
            == RecordedAll(t, pairs + if EpochCurrent(t, fr.job, fr.epoch) then {(fr.job, fr.frame)} else {})
  {
    hide WithFrames, FramesOf, Inv;
    var batch := set f | f in [fr.frame];
    RecordedMore(t, pairs, fr.job, batch);
    assert (set f | f in batch :: (fr.job, f)) == {(fr.job, fr.frame)};
    assert pairs + {} == pairs;
  }

  /** Applying frame reports one at a time, in order of arrival, records what the fence admits. */
  lemma {:induction false} FrameStepsAdmit(t: Tables, q: seq<FrameReport>)
    requires Inv(t)
    ensures Run(t, FrameSteps(q)) == RecordedAll(t, Admitted(t, q))
    decreases |q|
  {
    hide RecordedAll, EpochCurrent, Apply, Inv;
    if q == [] {
      RecordedNothing(t);
      assert Admitted(t, q) == {};
    } else {
      var before, fr := q[..|q| - 1], q[|q| - 1];
      FrameStepsAdmit(t, before);
      assert q == before + [fr];
      assert FrameSteps(q) == FrameSteps(before) + [AddFrames(fr.job, fr.epoch, [fr.frame])];
      RunSnoc(t, FrameSteps(before), AddFrames(fr.job, fr.epoch, [fr.frame]));
      AdmittedSnoc(t, before, fr);
      FrameAfter(t, Admitted(t, before), fr);
    }
  }

  type Groups = map<(JobId, int), seq<int>>

  /** The groups hold the frames of the queue, each under its job and epoch. */
  ghost predicate Grouped(g: Groups, q: seq<FrameReport>) {
    && (forall fr :: fr in q ==> (fr.job, fr.epoch) in g && fr.frame in g[(fr.job, fr.epoch)])
    && (forall k, f :: k in g && f in g[k] ==> FrameReport(k.0, f, k.1) in q)
  }

  /** The (job, frame) pairs of the groups done so far that the fence lets through. */
  ghost function Done(t: Tables, g: Groups, keys: set<(JobId, int)>): set<(JobId, int)>
    requires keys <= g.Keys
  {
    set k, f | k in keys && f in g[k] && EpochCurrent(t, k.0, k.1) :: (k.0, f)
  }

  lemma DoneAll(t: Tables, g: Groups, q: seq<FrameReport>)
    requires Grouped(g, q)
    ensures Done(t, g, g.Keys) == Admitted(t, q)
  {
  }

  lemma DoneOneMore(t: Tables, g: Groups, keys: set<(JobId, int)>, k: (JobId, int))
    requires keys <= g.Keys && k in g
    ensures Done(t, g, keys + {k})
            == if EpochCurrent(t, k.0, k.1) then Done(t, g, keys) + (set f | f in g[k] :: (k.0, f)) else Done(t, g, keys)
  {
  }

  // ---- Who can be given what ----

  /** The peer passes every check that does not look at the chunks. */
  predicate CanWork(p: Peer, dispatched: set<NodeId>, tracker: Tracker, now: int)
    reads tracker
  {
    && p.alive && !p.stopped && !p.rendering
    && p.id !in dispatched
    && !tracker.IsSuspended(p.id) && !tracker.IsInCooldown(p.id, now)
    && p.agentOk && p.ready
  }

  /** The chunk comes before everything that is left for the peer. */
  ghost predicate Ahead(t: Tables, t': Tables, id: ChunkId, p: Peer)
    requires id in t.chunks && t.chunks[id].job in t.jobs
  {
    forall other :: other != id && Eligible(t, other, p.id, p.tags) && Eligible(t', other, p.id, p.tags) ==> CandidateLess(t, id, other)
  }

  /** Nothing can be sent to the peer: it is remote and has no endpoint; or it is the local node and the
      chunk that comes first for it belongs to a job whose manifest does not decode. */
  ghost predicate Stuck(t: Tables, t': Tables, p: Peer) {
    if p.isLocal
    then exists id :: Eligible(t, id, p.id, p.tags) && t.jobs[t.chunks[id].job].manifest.plan.None? && Ahead(t, t', id, p)
    else !p.reachable
  }

  predicate Confirmed(peers: seq<Peer>, node: NodeId) {
    exists k | 0 <= k < |peers| :: peers[k].id == node && (peers[k].rendering || !peers[k].alive)
                                   && forall m | 0 <= m < k :: peers[m].id != node
  }

  /** The entries that still hold a node back: not confirmed by a heartbeat, and not too old. */
  function StillDispatched(d: map<NodeId, int>, peers: seq<Peer>, now: int): map<NodeId, int> {
    map n | n in d && !Confirmed(peers, n) && d[n] >= now - DISPATCHED_ENTRY_TTL_MS :: d[n]
  }

  /** What a pass does to the record of who was given work lately. Each node served has a new entry. Of the
      others, a node keeps its entry exactly when it is at most 15 seconds old and the first record of the node
      among the peers, if there is one, shows it alive and not rendering yet. */
  ghost predicate EntriesFit(was: map<NodeId, int>, after: map<NodeId, int>, peers: seq<Peer>, now: int, sent: seq<Dispatch>) {
    && (forall k :: 0 <= k < |sent| ==> sent[k].node in after && after[sent[k].node] == now)
    && (forall n :: n in after && !Served(sent, n) ==> n in was && after[n] == was[n] && now - was[n] <= 15000)
    && (forall n :: n in after && !Served(sent, n) ==> SeemsIdle(peers, n))
    && (forall n :: n in was && now - was[n] <= 15000 && SeemsIdle(peers, n) ==> n in after && after[n] == was[n] && !Served(sent, n))
  }

  /** The first record of the node, if there is one, shows it alive and not rendering. */
  ghost predicate SeemsIdle(peers: seq<Peer>, n: NodeId) {
    forall k :: 0 <= k < |peers| && peers[k].id == n && (peers[k].rendering || !peers[k].alive) ==>
      exists m :: 0 <= m < k && peers[m].id == n
  }

  /** Over two passes: a node that the first one served, and whose first record the second one finds alive and not
      rendering yet, gets nothing from the second one if that comes within 15 seconds. */
  lemma NotServedTwice(was: map<NodeId, int>, between: map<NodeId, int>, after: map<NodeId, int>, peers: seq<Peer>, peers': seq<Peer>,
                       now: int, now': int, sent: seq<Dispatch>, sent': seq<Dispatch>, n: NodeId)
    requires EntriesFit(was, between, peers, now, sent) && EntriesFit(between, after, peers', now', sent')
    requires Served(sent, n) && SeemsIdle(peers', n) && now' - now <= 15000
    ensures !Served(sent', n) && n in after && after[n] == now
  {
    var k :| 0 <= k < |sent| && sent[k].node == n;
  }

  /** And no node is held back for longer: when 15 seconds have passed, or its first record shows it rendering
      or dead, a node that is not served has no entry. */
  lemma EntriesEnd(was: map<NodeId, int>, after: map<NodeId, int>, peers: seq<Peer>, now: int, sent: seq<Dispatch>, n: NodeId, k: nat)
    requires EntriesFit(was, after, peers, now, sent) && !Served(sent, n)
    requires || (n in was && now - was[n] > 15000)
             || (k < |peers| && peers[k].id == n && (peers[k].rendering || !peers[k].alive) && forall m :: 0 <= m < k ==> peers[m].id != n)
    ensures n !in after
  {
  }

  lemma EntriesOfPass(was: map<NodeId, int>, peers: seq<Peer>, now: int, sent: seq<Dispatch>)
    requires forall k :: 0 <= k < |sent| ==> sent[k].node !in StillDispatched(was, peers, now)
    ensures EntriesFit(was, StillDispatched(was, peers, now) + map n | n in NodesOf(sent) :: now, peers, now, sent)
  {
    forall n
      ensures Served(sent, n) <==> n in NodesOf(sent)
    {
      if d :| d in sent && d.node == n {
        var k :| 0 <= k < |sent| && sent[k] == d;
      }
    }
    forall n, k | n in StillDispatched(was, peers, now) && 0 <= k < |peers| && peers[k].id == n && (peers[k].rendering || !peers[k].alive)
      ensures exists m :: 0 <= m < k && peers[m].id == n
    {
      assert !Confirmed(peers, n);
    }
    forall n | n in was && now - was[n] <= 15000 && SeemsIdle(peers, n)
      ensures n in StillDispatched(was, peers, now)
    {
    }
  }

  function Handed(t: Tables, d: Dispatch, now: int): Chunk
    requires d.chunk in t.chunks
  {
    t.chunks[d.chunk].(state := Assigned, assignee := Some(d.node), assignedAt := Some(now), epoch := d.epoch)
  }

  /** What one pass may have done: each chunk sent is assigned to the node it was sent to, under its
      job's epoch; a dispatch that could not be sent left nothing but the stamp. */
  ghost predicate PassEffect(t: Tables, t': Tables, sent: seq<Dispatch>, now: int) {
    && t'.jobs == t.jobs && t'.nextRow == t.nextRow && t'.nextChunk == t.nextChunk && t'.chunks.Keys == t.chunks.Keys
    && (forall k :: 0 <= k < |sent| ==>
          && sent[k].chunk in t.chunks && t.chunks[sent[k].chunk].state == Pending
          && sent[k].epoch == JobEpoch(t, t.chunks[sent[k].chunk].job)
          && t'.chunks[sent[k].chunk] == Handed(t, sent[k], now))
    && (forall id :: id in t.chunks && !WasSent(sent, id) ==>
          || t'.chunks[id] == t.chunks[id]
          || (t.chunks[id].state == Pending && t'.chunks[id] == t.chunks[id].(epoch := JobEpoch(t, t.chunks[id].job))))
  }

  ghost predicate WasSent(sent: seq<Dispatch>, id: ChunkId) {
    exists k :: 0 <= k < |sent| && sent[k].chunk == id
  }

  ghost predicate Served(sent: seq<Dispatch>, node: NodeId) {
    exists k :: 0 <= k < |sent| && sent[k].node == node
  }

  ghost predicate AtMostOneEach(sent: seq<Dispatch>) {
    forall i, j :: 0 <= i < j < |sent| ==> sent[i].node != sent[j].node && sent[i].chunk != sent[j].chunk
  }

  /** A node has no chunk left that it could be given. */
  ghost predicate NoWorkFor(t: Tables, p: Peer) {
    forall id :: !Eligible(t, id, p.id, p.tags)
  }

  /** During a pass the work for a node only shrinks: what is eligible later was eligible at the
      start, with the same job. */
  lemma EligibleOnlyShrinks(t: Tables, t': Tables, sent: seq<Dispatch>, now: int)
    requires PassEffect(t, t', sent, now)
    ensures forall id, node, tags :: Eligible(t', id, node, tags) ==> Eligible(t, id, node, tags)
    ensures forall id, node, tags :: Eligible(t, id, node, tags) && !WasSent(sent, id) ==> Eligible(t', id, node, tags)
  {
  }

  lemma PassOneMore(t: Tables, t': Tables, sent: seq<Dispatch>, now: int, d: Dispatch)
    requires Inv(t) && PassEffect(t, t', sent, now) && AtMostOneEach(sent)
    requires d.chunk in t'.chunks && t'.chunks[d.chunk].state == Pending && d.epoch == JobEpoch(t, t.chunks[d.chunk].job)
    requires !Served(sent, d.node)
    ensures !WasSent(sent, d.chunk)
    ensures AtMostOneEach(sent + [d])
    ensures PassEffect(t, WithRow(t', d.chunk, Handed(t', d, now)), sent + [d], now)
  {
    var after := sent + [d];
    assert forall id :: WasSent(sent, id) ==> t'.chunks[id].state == Assigned;
    forall id | WasSent(sent, id)
      ensures WasSent(after, id)
    {
      var k :| 0 <= k < |sent| && sent[k].chunk == id;
      assert after[k].chunk == id;
    }
    assert after[|sent|].chunk == d.chunk;
  }

  lemma PassNoneMore(t: Tables, t': Tables, sent: seq<Dispatch>, now: int, id: ChunkId)
    requires Inv(t) && PassEffect(t, t', sent, now)
    requires id in t'.chunks && t'.chunks[id].state == Pending
    ensures PassEffect(t, WithRow(t', id, t'.chunks[id].(epoch := JobEpoch(t, t.chunks[id].job))), sent, now)
  {
    assert !WasSent(sent, id);
  }

  /** During a pass jobs and ranges stay, so what comes first stays first. */
  lemma NextIsAhead(t: Tables, was: Tables, t': Tables, sent: seq<Dispatch>, now: int, p: Peer, id: ChunkId)
    requires PassEffect(t, was, sent, now) && IsNext(was, id, p.id, p.tags)
    requires forall x, node, tags :: Eligible(t', x, node, tags) ==> Eligible(was, x, node, tags)
    ensures Eligible(t, id, p.id, p.tags) && Ahead(t, t', id, p)
  {
    hide AllRequired;
    assert forall x :: x in t.chunks ==> was.chunks[x].job == t.chunks[x].job && was.chunks[x].range == t.chunks[x].range;
  }

  lemma EligibleIsThere(t: Tables, id: ChunkId, p: Peer)
    requires Eligible(t, id, p.id, p.tags)
    ensures id in t.chunks && t.chunks[id].job in t.jobs
  {
  }

  /** A turn that ends in a dispatch. */
  lemma TurnSent(t: Tables, was: Tables, sent: seq<Dispatch>, p: Peer, id: ChunkId, now: int)
    requires Inv(t) && Inv(was) && PassEffect(t, was, sent, now) && AtMostOneEach(sent)
    requires IsNext(was, id, p.id, p.tags) && !Served(sent, p.id)
    ensures Eligible(t, id, p.id, p.tags)
    ensures Ahead(t, WithRow(was, id, Handed(was, Dispatch(p.id, id, JobEpoch(was, was.chunks[id].job)), now)), id, p)
    ensures var d := Dispatch(p.id, id, JobEpoch(was, was.chunks[id].job)); var t' := WithRow(was, id, Handed(was, d, now));
            && Inv(t') && PassEffect(t, t', sent + [d], now) && AtMostOneEach(sent + [d])
            && forall x, node, tags :: Eligible(t', x, node, tags) ==> Eligible(was, x, node, tags)
  {
    hide Inv, AtMostOneEach;
    EligibleOnlyShrinks(t, was, sent, now);
    PassOneMore(t, was, sent, now, Dispatch(p.id, id, JobEpoch(was, was.chunks[id].job)));
    StepKeepsInv(was, Assign(id, p.id, p.tags, now));
    NextIsAhead(t, was, WithRow(was, id, Handed(was, Dispatch(p.id, id, JobEpoch(was, was.chunks[id].job)), now)), sent, now, p, id);
  }

  /** A turn that takes its assignment back: the peer cannot be sent to, or the chunk that comes first
      for it cannot be sent. */
  lemma TurnUnsent(t: Tables, was: Tables, sent: seq<Dispatch>, p: Peer, id: ChunkId, now: int)
    requires Inv(t) && Inv(was) && PassEffect(t, was, sent, now) && IsNext(was, id, p.id, p.tags)
    requires if p.isLocal then was.jobs[was.chunks[id].job].manifest.plan.None? else !p.reachable
    ensures Stuck(t, WithRow(was, id, was.chunks[id].(epoch := JobEpoch(was, was.chunks[id].job))), p)
    ensures var t' := WithRow(was, id, was.chunks[id].(epoch := JobEpoch(was, was.chunks[id].job)));
            && Inv(t') && PassEffect(t, t', sent, now)
            && forall x, node, tags :: Eligible(t', x, node, tags) ==> Eligible(was, x, node, tags)
  {
    hide Inv;
    EligibleOnlyShrinks(t, was, sent, now);
    PassNoneMore(t, was, sent, now, id);
    RestampKeepsInv(was, id);
    NextIsAhead(t, was, WithRow(was, id, was.chunks[id].(epoch := JobEpoch(was, was.chunks[id].job))), sent, now, p, id);
  }

  /** Assigning a chunk and reverting it at once leaves nothing but the stamp. */
  lemma AssignThenRevert(t: Tables, id: ChunkId, node: NodeId, now: int, epoch: int)
    requires Inv(t) && id in t.chunks && t.chunks[id].state == Pending
    ensures var c := t.chunks[id];
            var t1 := WithRow(t, id, c.(state := Assigned, assignee := Some(node), assignedAt := Some(now), epoch := epoch));
            Apply(t1, Revert(c.job, c.range)) == WithRow(t, id, c.(epoch := epoch))
  {
    var c := t.chunks[id];
    var t1 := WithRow(t, id, c.(state := Assigned, assignee := Some(node), assignedAt := Some(now), epoch := epoch));
    forall other | other in t.chunks
      ensures Reverted(t1.chunks[other], c.job, c.range) == WithRow(t, id, c.(epoch := epoch)).chunks[other]
    {
      if t.chunks[other].job == c.job && t.chunks[other].range == c.range { RangeNamesRow(t, id, other); }
    }
    assert Apply(t1, Revert(c.job, c.range)).chunks == WithRow(t, id, c.(epoch := epoch)).chunks;
  }

  ghost predicate HasOpenChunk(t: Tables, job: JobId) {
    exists id :: id in t.chunks && t.chunks[id].job == job && (t.chunks[id].state == Pending || t.chunks[id].state == Assigned)
  }

  ghost predicate HasFailedChunk(t: Tables, job: JobId) {
    exists id :: id in t.chunks && t.chunks[id].job == job && t.chunks[id].state == Failed
  }

  /** An active job with nothing pending or in flight is over: broken if some chunk has failed for good, and
      finished if none has. Any other job stays as it is. */
  ghost function Judged(t: Tables, job: JobId): Job
    requires job in t.jobs
  {
    var j := t.jobs[job];
    if j.status == Active && !HasOpenChunk(t, job) then j.(status := if HasFailedChunk(t, job) then Broken else Finished) else j
  }

  lemma CheckJudges(t: Tables, job: JobId)
    ensures var t' := Apply(t, CheckCompletion(job));
            && t'.chunks == t.chunks && t'.jobs.Keys == t.jobs.Keys
            && forall j :: j in t.jobs ==> t'.jobs[j] == if j == job then Judged(t, j) else t.jobs[j]
  {
    if HasChunk(t, job, {Pending, Assigned}) {
      var id :| id in t.chunks && t.chunks[id].job == job && t.chunks[id].state in {Pending, Assigned};
      assert HasOpenChunk(t, job);
    }
    if HasChunk(t, job, {Failed}) {
      var id :| id in t.chunks && t.chunks[id].job == job && t.chunks[id].state in {Failed};
      assert HasFailedChunk(t, job);
    }
  }

  /** Checking jobs one after the other judges each by the chunks that it has. */
  lemma {:induction false} ChecksReach(t: Tables, order: seq<JobId>)
    ensures var t' := Run(t, Checks(order));
            && t'.chunks == t.chunks && t'.jobs.Keys == t.jobs.Keys
            && forall j :: j in t.jobs ==> t'.jobs[j] == if j in order then Judged(t, j) else t.jobs[j]
    decreases |order|
  {
    hide Apply, HasOpenChunk, HasFailedChunk;
    if order != [] {
      var t1, rest := Apply(t, CheckCompletion(order[0])), order[1..];
      assert Checks(order) == [CheckCompletion(order[0])] + Checks(rest);
      RunCons(t, CheckCompletion(order[0]), Checks(rest));
      CheckJudges(t, order[0]);
      ChecksReach(t1, rest);
      SameChunksSameVerdict(t, t1);
      assert order == [order[0]] + rest;
    }
  }

  lemma SameChunksSameVerdict(t: Tables, t1: Tables)
    requires t1.chunks == t.chunks
    ensures forall j :: (HasOpenChunk(t1, j) <==> HasOpenChunk(t, j)) && (HasFailedChunk(t1, j) <==> HasFailedChunk(t, j))
  {
  }

  /** Some record of a remote node shows that it has died or needs attention. */
  predicate IsGone(peers: seq<Peer>, node: NodeId) {
    exists k | 0 <= k < |peers| :: peers[k].id == node && !peers[k].isLocal && (!peers[k].alive || peers[k].needsAttention)
  }

  /** Reclaiming from all lost peers in turn takes back exactly what is in flight at one of them. */
  lemma {:induction false} ReclaimsReach(t: Tables, peers: seq<Peer>)
    ensures var t' := Run(t, Reclaims(peers));
            && t'.jobs == t.jobs && t'.chunks.Keys == t.chunks.Keys
            && forall id :: id in t.chunks ==> var c := t.chunks[id];
                 t'.chunks[id] == if c.state == Assigned && c.assignee.Some? && IsGone(peers, c.assignee.value)
                                  then c.(state := Pending, assignee := None, assignedAt := None) else c
    decreases |peers|
  {
    hide Apply, IsGone;
    if peers == [] {
      NobodyGone();
    } else {
      var first, rest := peers[0], peers[1..];
      var t1 := if Lost(first) then Apply(t, Reclaim(first.id)) else t;
      if Lost(first) { RunCons(t, Reclaim(first.id), Reclaims(rest)); } else { assert [] + Reclaims(rest) == Reclaims(rest); }
      ReclaimsReach(t1, rest);
      forall id | id in t.chunks
        ensures id in t1.chunks && t1.jobs == t.jobs && t1.chunks.Keys == t.chunks.Keys
        ensures t1.chunks[id] == if Lost(first) && t.chunks[id].state == Assigned && t.chunks[id].assignee == Some(first.id)
                                 then t.chunks[id].(state := Pending, assignee := None, assignedAt := None) else t.chunks[id]
      {
        StepLaws.ReclaimLaw(t, first.id, id);
      }
      SameJobs(t, first.id);
      forall node
        ensures IsGone(peers, node) <==> IsGone(rest, node) || (first.id == node && Lost(first))
      {
        GoneFirstOrLater(peers, node);
      }
    }
  }

  lemma NobodyGone()
    ensures forall node :: !IsGone([], node)
  {
  }

  lemma SameJobs(t: Tables, node: NodeId)
    ensures Apply(t, Reclaim(node)).jobs == t.jobs && Apply(t, Reclaim(node)).chunks.Keys == t.chunks.Keys
  {
  }

  lemma GoneFirstOrLater(peers: seq<Peer>, node: NodeId)
    requires peers != []
    ensures IsGone(peers, node) <==> IsGone(peers[1..], node) || (peers[0].id == node && Lost(peers[0]))
  {
    if k :| 0 <= k < |peers[1..]| && peers[1..][k].id == node && Lost(peers[1..][k]) { assert peers[k + 1] == peers[1..][k]; }
    if k :| 0 <= k < |peers| && peers[k].id == node && Lost(peers[k]) {
      if k > 0 { assert peers[1..][k - 1] == peers[k]; }
    }
  }

  class Dispatcher {
    const db: Database
    const tracker: Tracker
    var completionQueue: seq<Report>
    var failureQueue: seq<Report>
    var revertQueue: seq<RevertRequest>
    var frameQueue: seq<FrameReport>
    var dispatched: map<NodeId, int>

    constructor (db: Database, tracker: Tracker)
      ensures this.db == db && this.tracker == tracker
      ensures completionQueue == [] && failureQueue == [] && revertQueue == [] && frameQueue == [] && dispatched == map[]
    {
      this.db, this.tracker := db, tracker;
      completionQueue, failureQueue, revertQueue, frameQueue, dispatched := [], [], [], [], map[];
    }

    // ---- Receiving ----

    /** Worker reports over HTTP: a stale one is answered as such, any other is queued. */
    method ReceiveCompletion(r: Report) returns (stale: bool)
      modifies this`completionQueue
      ensures stale <==> !AnyCurrent(db.View(), r)
      ensures completionQueue == if stale then old(completionQueue) else old(completionQueue) + [r]
    {
      var current := db.IsChunkCurrent(r);
      if !current {
        return true;
      }
      completionQueue := completionQueue + [r];
      return false;
    }

    method ReceiveFailure(r: Report) returns (stale: bool)
      modifies this`failureQueue
      ensures stale <==> !AnyCurrent(db.View(), r)
      ensures failureQueue == if stale then old(failureQueue) else old(failureQueue) + [r]
    {
      var current := db.IsChunkCurrent(r);
      if !current {
        return true;
      }
      failureQueue := failureQueue + [r];
      return false;
    }

    method ReceiveFrames(job: JobId, frames: seq<int>, epoch: int) returns (stale: bool)
      modifies this`frameQueue
      ensures stale <==> !EpochCurrent(db.View(), job, epoch)
      ensures frameQueue == old(frameQueue)
                            + if stale then [] else seq(|frames|, i requires 0 <= i < |frames| => FrameReport(job, frames[i], epoch))
    {
      var current := db.IsJobEpochCurrent(job, epoch);
      if !current {
        return true;
      }
      for i := 0 to |frames|
        invariant frameQueue == old(frameQueue) + seq(i, j requires 0 <= j < i => FrameReport(job, frames[j], epoch))
      {
        frameQueue := frameQueue + [FrameReport(job, frames[i], epoch)];
      }
      return false;
    }

    // ---- Submitting ----

    method SubmitJob(job: JobId, manifest: Manifest, priority: int, submittedAt: int) returns (ok: bool)
      requires manifest.plan.Some?
      modifies db
      ensures ok <==> job !in old(db.jobs)
      ensures db.View() == Apply(old(db.View()), Submit(job, manifest, priority, submittedAt))
    {
      ok := db.InsertJob(job, manifest, priority, submittedAt);
      if ok {
        var p := manifest.plan.value;
        var ranges := ComputeChunks(p.first, p.last, p.size);
        db.InsertChunks(job, ranges);
        InsertNothingFirst(old(db.View()), job, manifest, priority, submittedAt, FreshChunks(job, ranges));
      }
    }

    /** A new job with the source's ranges, those already rendered marked completed. */
    method ResubmitIncomplete(source: JobId, job: JobId, now: int) returns (ok: bool)
      requires Inv(db.View())
      modifies db
      ensures ok <==> CanResubmit(old(db.View()), source) && job !in old(db.jobs)
      ensures db.View() == Apply(old(db.View()), Resubmit(source, job, now))
    {
      if source !in db.jobs || db.jobs[source].manifest.plan.None? {
        return false;
      }
      var all, completed, hasIncomplete := SplitRanges(source);
      if !hasIncomplete {
        return false;
      }
      ok := db.InsertJob(job, db.jobs[source].manifest, db.jobs[source].priority, now);
      if ok {
        db.InsertChunks(job, all);
        db.MarkChunksCompleted(job, completed, now);
        CopyInTwoSteps(old(db.View()), source, job, now, all, completed);
      }
    }

    method SplitRanges(source: JobId) returns (all: seq<Range>, completed: seq<Range>, hasIncomplete: bool)
      ensures var order := ChunkOrder(db.View(), source);
              |all| == |order| && forall k :: 0 <= k < |order| ==> order[k] in db.chunks && all[k] == db.chunks[order[k]].range
      ensures forall r :: r in completed <==> CompletedIn(db.View(), source, r)
      ensures hasIncomplete <==> HasChunk(db.View(), source, {Pending, Assigned, Failed, Stopped})
    {
      hide CompletedAmong, UnfinishedAmong, CompletedIn, HasChunk, ChunkOrder;
      ghost var t := db.View();
      var order := ChunkOrder(db.View(), source);
      ChunksListed(t, source);
      assert forall id :: id in order ==> id in t.chunks;
      NoneAmong(t);
      assert order[..0] == [];
      all, completed, hasIncomplete := [], [], false;
      for i := 0 to |order|
        invariant db.View() == t
        invariant |all| == i && forall k :: 0 <= k < i ==> order[k] in t.chunks && all[k] == t.chunks[order[k]].range
        invariant forall r :: r in completed <==> CompletedAmong(t, order[..i], r)
        invariant hasIncomplete <==> UnfinishedAmong(t, order[..i])
      {
        assert order[i] in order;
        AmongOneMore(t, order, i);
        var c := db.chunks[order[i]];
        all := all + [c.range];
        ghost var before := completed;
        if c.state == Completed {
          completed := completed + [c.range];
        } else {
          hasIncomplete := true;
        }
        assert forall r :: r in completed <==> r in before || (c.state == Completed && r == c.range);
      }
      assert order[..|order|] == order;
      AmongTheJob(t, source);
    }

    // ---- Draining reports ----

    /** All queues are emptied: completions, then failures, then reverts, then frames. */
    method ProcessReports(now: int)
      requires Inv(db.View()) && tracker.Valid()
      modifies this, db, tracker
      ensures completionQueue == [] && failureQueue == [] && revertQueue == [] && frameQueue == []
      ensures dispatched == old(dispatched) && tracker.Valid()
      ensures db.View() == Run(old(db.View()), Completions(old(completionQueue), now) + Failures(old(failureQueue))
                                               + Reverts(old(revertQueue)) + FrameSteps(old(frameQueue)))
    {
      hide Inv, Run, Completions, Failures, Reverts, FrameSteps;
      var completions, failures, reverts, frames := completionQueue, failureQueue, revertQueue, frameQueue;
      completionQueue, failureQueue, revertQueue, frameQueue := [], [], [], [];
      ghost var t := db.View();
      DrainCompletions(completions, now);
      ghost var t1 := db.View();
      RunKeepsInv(t, Completions(completions, now));
      DrainFailures(failures, now);
      ghost var t2 := db.View();
      RunKeepsInv(t1, Failures(failures));
      DrainReverts(reverts);
      ghost var t3 := db.View();
      RunKeepsInv(t2, Reverts(reverts));
      DrainFrames(frames);
      RunConcat(t, Completions(completions, now), Failures(failures));
      RunConcat(t, Completions(completions, now) + Failures(failures), Reverts(reverts));
      RunConcat(t, Completions(completions, now) + Failures(failures) + Reverts(reverts), FrameSteps(frames));
    }

    method DrainCompletions(q: seq<Report>, now: int)
      modifies db
      ensures db.View() == Run(old(db.View()), Completions(q, now))
    {
      var i := 0;
      while i < |q|
        invariant 0 <= i <= |q|
        invariant db.View() == Run(old(db.View()), Completions(q[..i], now))
      {
        var _ := db.CompleteChunk(q[i], now);
        RunSnoc(old(db.View()), Completions(q[..i], now), Complete(q[i], now));
        assert Completions(q[..i + 1], now) == Completions(q[..i], now) + [Complete(q[i], now)];
        i := i + 1;
      }
      assert q[..|q|] == q;
    }

    method DrainFailures(q: seq<Report>, now: int)
      requires Inv(db.View()) && tracker.Valid()
      modifies db, tracker
      ensures db.View() == Run(old(db.View()), Failures(q))
      ensures tracker.Valid()
    {
      var i := 0;
      while i < |q|
        invariant 0 <= i <= |q| && tracker.Valid()
        invariant db.View() == Run(old(db.View()), Failures(q[..i]))
      {
        RunKeepsInv(old(db.View()), Failures(q[..i]));
        ApplyFailure(q[i], now);
        RunSnoc(old(db.View()), Failures(q[..i]), Fail(q[i]));
        assert Failures(q[..i + 1]) == Failures(q[..i]) + [Fail(q[i])];
        i := i + 1;
      }
      assert q[..|q|] == q;
    }

    /** The job's own retry limit applies, or the default when its manifest does not decode. */
    method ApplyFailure(r: Report, now: int)
      requires Inv(db.View()) && tracker.Valid()
      modifies db, tracker
      ensures db.View() == Apply(old(db.View()), Fail(r))
      ensures tracker.Valid()
      ensures tracker.failures == if r.node == "" then old(tracker.failures)
                                  else old(tracker.failures)[r.node := old(tracker.FailuresOf(r.node)) + [now]]
    {
      var maxRetries := DEFAULT_MAX_RETRIES;
      if r.job in db.jobs && db.jobs[r.job].manifest.plan.Some? {
        maxRetries := db.jobs[r.job].manifest.plan.value.maxRetries;
      }
      var _ := db.FailChunk(r, maxRetries);
      if r.node != "" {
        tracker.RecordFailure(r.node, now);
      }
    }

    method DrainReverts(q: seq<RevertRequest>)
      modifies db
      ensures db.View() == Run(old(db.View()), Reverts(q))
    {
      var i := 0;
      while i < |q|
        invariant 0 <= i <= |q|
        invariant db.View() == Run(old(db.View()), Reverts(q[..i]))
      {
        var _ := db.RevertChunkToPending(q[i].job, q[i].range);
        RunSnoc(old(db.View()), Reverts(q[..i]), Revert(q[i].job, q[i].range));
        assert Reverts(q[..i + 1]) == Reverts(q[..i]) + [Revert(q[i].job, q[i].range)];
        i := i + 1;
      }
      assert q[..|q|] == q;
    }

    /** Frames are grouped by job and epoch, and a group from before an edit is dropped whole. The
        effect is that of applying every report on its own, in order. */
    method DrainFrames(q: seq<FrameReport>)
      requires Inv(db.View())
      modifies db
      ensures db.View() == Run(old(db.View()), FrameSteps(q))
    {
      ghost var t := db.View();
      var groups := GroupFrames(q);
      var left := groups.Keys;
      RecordedNothing(t);
      assert Done(t, groups, groups.Keys - left) == {};
      while left != {}
        invariant left <= groups.Keys
        invariant db.View() == RecordedAll(t, Done(t, groups, groups.Keys - left))
        decreases |left|
      {
        var key :| key in left;
        RecordGroup(t, groups, groups.Keys - left, key);
        assert groups.Keys - (left - {key}) == groups.Keys - left + {key};
        left := left - {key};
      }
      assert groups.Keys - {} == groups.Keys;
      DoneAll(t, groups, q);
      FrameStepsAdmit(t, q);
    }

    method GroupFrames(q: seq<FrameReport>) returns (groups: Groups)
      ensures Grouped(groups, q)
    {
      groups := map[];
      for i := 0 to |q|
        invariant Grouped(groups, q[..i])
      {
        var key := (q[i].job, q[i].epoch);
        groups := groups[key := (if key in groups then groups[key] else []) + [q[i].frame]];
        assert q[..i + 1] == q[..i] + [q[i]];
      }
      assert q[..|q|] == q;
    }

    method RecordGroup(ghost t: Tables, groups: Groups, ghost done: set<(JobId, int)>, key: (JobId, int))
      requires Inv(t) && done <= groups.Keys && key in groups
      requires db.View() == RecordedAll(t, Done(t, groups, done))
      modifies db
      ensures db.View() == RecordedAll(t, Done(t, groups, done + {key}))
    {
      FrameStepsAdmitInv(t, Done(t, groups, done));
      DoneOneMore(t, groups, done, key);
      var current := db.IsJobEpochCurrent(key.0, key.1);
      if current {
        db.AddCompletedFramesBatch(key.0, groups[key]);
        ghost var batch := set f | f in groups[key];
        RecordedMore(t, Done(t, groups, done), key.0, batch);
        assert Done(t, groups, done + {key}) == Done(t, groups, done) + set f | f in batch :: (key.0, f);
      }
    }

    // ---- Reclaiming and closing ----

    method DetectDeadWorkers(peers: seq<Peer>)
      modifies db
      ensures db.View() == Run(old(db.View()), Reclaims(peers))
      ensures db.jobs == old(db.jobs) && db.chunks.Keys == old(db.chunks).Keys
      ensures forall id :: id in db.chunks ==> var c := old(db.chunks)[id];
                db.chunks[id] == if c.state == Assigned && c.assignee.Some? && IsGone(peers, c.assignee.value)
                                 then c.(state := Pending, assignee := None, assignedAt := None) else c
    {
      ReclaimsReach(db.View(), peers);
      var i := 0;
      while i < |peers|
        invariant 0 <= i <= |peers|
        invariant Run(db.View(), Reclaims(peers[i..])) == Run(old(db.View()), Reclaims(peers))
      {
        var p := peers[i];
        assert peers[i..][0] == p && peers[i..][1..] == peers[i + 1..];
        if Lost(p) {
          RunCons(db.View(), Reclaim(p.id), Reclaims(peers[i + 1..]));
          var _ := db.ReassignDeadWorkerChunks(p.id);
        } else {
          assert [] + Reclaims(peers[i + 1..]) == Reclaims(peers[i + 1..]);
        }
        i := i + 1;
      }
    }

    method CheckJobCompletions()
      requires Inv(db.View())
      modifies db
      ensures Distinct(JobKeys(old(db.jobs)))
      ensures db.View() == Run(old(db.View()), Checks(Sorted(JobKeys(old(db.jobs)))))
      ensures db.chunks == old(db.chunks) && db.jobs.Keys == old(db.jobs).Keys
      ensures forall j :: j in db.jobs ==> db.jobs[j] == Judged(old(db.View()), j)
    {
      JobKeysDistinct(db.View());
      ChecksReach(db.View(), Sorted(JobKeys(db.jobs)));
      assert Lists(Sorted(JobKeys(db.jobs)), JobKeys(db.jobs));
      CheckJobs(Sorted(JobKeys(db.jobs)));
    }

    method CheckJobs(order: seq<JobId>)
      modifies db
      ensures db.View() == Run(old(db.View()), Checks(order))
    {
      var i := 0;
      while i < |order|
        invariant 0 <= i <= |order|
        invariant db.View() == Run(old(db.View()), Checks(order[..i]))
      {
        CheckJob(order[i]);
        RunSnoc(old(db.View()), Checks(order[..i]), CheckCompletion(order[i]));
        assert Checks(order[..i + 1]) == Checks(order[..i]) + [CheckCompletion(order[i])];
        i := i + 1;
      }
      assert order[..|order|] == order;
    }

    method CheckJob(job: JobId)
      modifies db
      ensures db.View() == Apply(old(db.View()), CheckCompletion(job))
    {
      if job in db.jobs && db.jobs[job].status == Active {
        var verdict := db.GetJobCompletionState(job);
        if verdict.Some? {
          var _ := db.UpdateJobState(job, verdict.value);
        }
      }
    }

    // ---- Handing out work ----

    /** Forget the entries that a heartbeat has confirmed, and those that have grown too old. */
    method DropOldEntries(peers: seq<Peer>, now: int)
      modifies this`dispatched
      ensures dispatched == StillDispatched(old(dispatched), peers, now)
    {
      var left := dispatched.Keys;
      while left != {}
        invariant left <= dispatched.Keys <= old(dispatched).Keys
        invariant forall n :: n in dispatched ==> dispatched[n] == old(dispatched)[n]
        invariant forall n :: n in old(dispatched) && n !in left ==> (n in dispatched <==> n in StillDispatched(old(dispatched), peers, now))
        decreases |left|
      {
        var n :| n in left;
        left := left - {n};
        var confirmed := IsConfirmed(peers, n);
        if !confirmed && dispatched[n] < now - DISPATCHED_ENTRY_TTL_MS {
          confirmed := true;
        }
        if confirmed {
          dispatched := dispatched - {n};
        }
      }
    }

    /** Whether the first record of the node shows that the heartbeat has caught up. */
    method IsConfirmed(peers: seq<Peer>, node: NodeId) returns (confirmed: bool)
      ensures confirmed <==> Confirmed(peers, node)
    {
      for i := 0 to |peers|
        invariant forall k :: 0 <= k < i ==> peers[k].id != node
      {
        if peers[i].id == node {
          return peers[i].rendering || !peers[i].alive;
        }
      }
      return false;
    }

    /** One pass over the peers. No node gets two chunks and no chunk two nodes; every chunk handed
        out was there for that node to have; and a node that could have been given work and was not
        has none left. */
    method AssignWork(peers: seq<Peer>, now: int) returns (sent: seq<Dispatch>, ghost steps: seq<Step>)
      requires Inv(db.View())
      modifies this`dispatched, db
      ensures Inv(db.View()) && PassEffect(old(db.View()), db.View(), sent, now)
      ensures db.View() == Run(old(db.View()), steps) && forall s :: s in steps ==> s.Assign? || s.Revert?
      ensures AtMostOneEach(sent)
      ensures forall k :: 0 <= k < |sent| ==>
                JustlySent(old(db.View()), db.View(), peers, sent[k], StillDispatched(old(dispatched), peers, now).Keys, tracker, now)
      ensures dispatched == StillDispatched(old(dispatched), peers, now) + map n | n in NodesOf(sent) :: now
      ensures forall k :: 0 <= k < |peers| ==>
                !Neglected(old(db.View()), db.View(), peers[k], sent, StillDispatched(old(dispatched), peers, now).Keys, tracker, now)
      ensures EntriesFit(old(dispatched), dispatched, peers, now, sent)
      ensures SentToTheReady(peers, sent, tracker, now)
      ensures TheReadyAreServed(old(db.View()), db.View(), peers, dispatched, tracker, now)
    {
      ghost var t := db.View();
      DropOldEntries(peers, now);
      ghost var kept := dispatched;
      sent, steps := [], [];
      var i := 0;
      while i < |peers|
        invariant 0 <= i <= |peers|
        invariant db.View() == Run(t, steps) && forall s :: s in steps ==> s.Assign? || s.Revert?
        invariant Inv(db.View()) && PassEffect(t, db.View(), sent, now) && AtMostOneEach(sent)
        invariant PassSoFar(t, db.View(), peers, i, sent, kept, dispatched, tracker, now)
      {
        ghost var was, before, entries := db.View(), sent, dispatched;
        ghost var turn;
        var d;
        d, turn := ServePeer(peers[i], now, t, sent);
        RunConcat(t, steps, turn);
        steps := steps + turn;
        TurnKeepsPass(t, was, db.View(), peers, i, before, d, kept, entries, dispatched, tracker, now);
        sent := if d.Some? then sent + [d.value] else sent;
        i := i + 1;
      }
      EntriesOfPass(old(dispatched), peers, now, sent);
      SentWell(t, db.View(), peers, sent, kept.Keys, tracker, now);
      LeftWell(t, db.View(), peers, sent, kept, dispatched, tracker, now);
    }

    /** One peer's turn: find, assign, send - or take the assignment back when it cannot be sent. */
    method ServePeer(p: Peer, now: int, ghost t: Tables, ghost sent: seq<Dispatch>)
      returns (d: Option<Dispatch>, ghost steps: seq<Step>)
      requires Inv(t) && Inv(db.View()) && PassEffect(t, db.View(), sent, now) && AtMostOneEach(sent)
      requires NodesOf(sent) <= dispatched.Keys
      modifies this`dispatched, db
      ensures Inv(db.View())
      ensures db.View() == Run(old(db.View()), steps) && forall s :: s in steps ==> s.Assign? || s.Revert?
      ensures d.Some? ==> d.value.node == p.id && Eligible(t, d.value.chunk, p.id, p.tags)
                          && Ahead(t, db.View(), d.value.chunk, p) && CanWork(p, old(dispatched).Keys, tracker, now)
      ensures d.None? ==> dispatched == old(dispatched) && PassEffect(t, db.View(), sent, now)
      ensures d.Some? ==> dispatched == old(dispatched)[p.id := now]
                          && PassEffect(t, db.View(), sent + [d.value], now) && AtMostOneEach(sent + [d.value])
      ensures forall id, node, tags :: Eligible(db.View(), id, node, tags) ==> Eligible(old(db.View()), id, node, tags)
      ensures d.None? && CanWork(p, old(dispatched).Keys, tracker, now) ==> NoWorkFor(db.View(), p) || Stuck(t, db.View(), p)
    {
      hide Inv, AtMostOneEach, PassEffect, Eligible, WithRow, Handed, Ahead, Stuck;
      if !p.alive || p.stopped || p.rendering || p.id in dispatched || tracker.IsSuspended(p.id)
         || tracker.IsInCooldown(p.id, now) || !p.agentOk || !p.ready {
        return None, [];
      }
      var found := db.FindNextPendingChunkForNode(p.tags, p.id);
      if found.None? {
        return None, [];
      }
      ghost var was := db.View();
      assert !Served(sent, p.id);
      EligibleIsThere(was, found.value, p);
      d, steps := AssignAndSend(p, found.value, now);
      if d.Some? {
        TurnSent(t, was, sent, p, found.value, now);
      } else {
        TurnUnsent(t, was, sent, p, found.value, now);
      }
    }

    method AssignAndSend(p: Peer, id: ChunkId, now: int) returns (d: Option<Dispatch>, ghost steps: seq<Step>)
      requires Inv(db.View()) && Eligible(db.View(), id, p.id, p.tags)
      modifies this`dispatched, db
      ensures d.Some? <==> if p.isLocal then old(db.jobs)[old(db.chunks)[id].job].manifest.plan.Some? else p.reachable
      ensures var was := old(db.View()); var epoch := JobEpoch(was, was.chunks[id].job);
              if d.Some? then
                && d.value == Dispatch(p.id, id, epoch) && db.View() == WithRow(was, id, Handed(was, d.value, now))
                && dispatched == old(dispatched)[p.id := now]
              else
                db.View() == WithRow(was, id, was.chunks[id].(epoch := epoch)) && dispatched == old(dispatched)
      ensures var assign := Assign(id, p.id, p.tags, now); var c := old(db.chunks)[id];
              steps == (if d.Some? then [assign] else [assign, Revert(c.job, c.range)])
      ensures db.View() == Run(old(db.View()), steps)
    {
      var c := db.chunks[id];
      var epoch := db.GetJobEditEpoch(c.job);
      var _ := db.AssignChunk(id, p.id, now, epoch);
      steps := [Assign(id, p.id, p.tags, now)];
      RunSnoc(old(db.View()), [], Assign(id, p.id, p.tags, now));
      assert [] + steps == steps;
      var deliverable := if p.isLocal then db.jobs[c.job].manifest.plan.Some? else p.reachable;
      if !deliverable {
        var _ := db.RevertChunkToPending(c.job, c.range);
        AssignThenRevert(old(db.View()), id, p.id, now, epoch);
        RunSnoc(old(db.View()), steps, Revert(c.job, c.range));
        return None, steps + [Revert(c.job, c.range)];
      }
      dispatched := dispatched[p.id := now];
      return Some(Dispatch(p.id, id, epoch)), steps;
    }
  }

  // ---- Facts the methods use ----

  predicate CompletedIn(t: Tables, job: JobId, r: Range) {
    exists id | id in t.chunks :: t.chunks[id].job == job && t.chunks[id].range == r && t.chunks[id].state == Completed
  }

  ghost predicate CompletedAmong(t: Tables, ids: seq<ChunkId>, r: Range) {
    exists id :: id in ids && id in t.chunks && t.chunks[id].range == r && t.chunks[id].state == Completed
  }

  ghost predicate UnfinishedAmong(t: Tables, ids: seq<ChunkId>) {
    exists id :: id in ids && id in t.chunks && t.chunks[id].state != Completed
  }

  lemma ChunksListed(t: Tables, job: JobId)
    ensures forall id :: id in ChunkOrder(t, job) <==> id in t.chunks && t.chunks[id].job == job
  {
    assert Lists(ChunkOrder(t, job), ChunkKeys(t, job));
  }

  lemma NoneAmong(t: Tables)
    ensures !UnfinishedAmong(t, []) && forall r :: !CompletedAmong(t, [], r)
  {
  }

  lemma AmongOneMore(t: Tables, ids: seq<ChunkId>, i: nat)
    requires i < |ids| && ids[i] in t.chunks
    ensures var c := t.chunks[ids[i]];
            && (UnfinishedAmong(t, ids[..i + 1]) <==> UnfinishedAmong(t, ids[..i]) || c.state != Completed)
            && (forall r :: CompletedAmong(t, ids[..i + 1], r)
                            <==> CompletedAmong(t, ids[..i], r) || (c.state == Completed && c.range == r))
  {
    assert forall id :: id in ids[..i + 1] <==> id in ids[..i] || id == ids[i] by {
      assert ids[..i + 1] == ids[..i] + [ids[i]];
    }
    forall r
      ensures CompletedAmong(t, ids[..i + 1], r) <==> CompletedAmong(t, ids[..i], r) || (t.chunks[ids[i]].state == Completed && t.chunks[ids[i]].range == r)
    {
      if CompletedAmong(t, ids[..i], r) {
        var id :| id in ids[..i] && id in t.chunks && t.chunks[id].range == r && t.chunks[id].state == Completed;
        assert id in ids[..i + 1];
      }
    }
  }

  lemma AmongTheJob(t: Tables, job: JobId)
    ensures forall r :: CompletedAmong(t, ChunkOrder(t, job), r) <==> CompletedIn(t, job, r)
    ensures UnfinishedAmong(t, ChunkOrder(t, job)) <==> HasChunk(t, job, {Pending, Assigned, Failed, Stopped})
  {
  }

  lemma CopiedRow(t: Tables, source: JobId, job: JobId, at: int, all: seq<Range>, completed: seq<Range>, k: nat)
    requires var order := ChunkOrder(t, source);
             |all| == |order| && k < |all| && order[k] in t.chunks && all[k] == t.chunks[order[k]].range
    requires forall r :: r in completed <==> CompletedIn(t, source, r)
    ensures CopiedChunks(t, source, job, at)[k] == MarkedRow(FreshChunk(job, all[k]), job, completed, at)
  {
    assert all[k] in completed <==> CompletedIn(t, source, all[k]);
  }

  lemma MarkedInserted(t: Tables, job: JobId, rows: seq<Chunk>, marked: seq<Chunk>, ranges: seq<Range>, at: int)
    requires |rows| == |marked| && forall id :: id in t.chunks ==> id < t.nextChunk && t.chunks[id].job != job
    requires forall k :: 0 <= k < |rows| ==> marked[k] == MarkedRow(rows[k], job, ranges, at)
    ensures Inserted(t, marked) == Inserted(t, rows).(chunks := MarkedCompleted(Inserted(t, rows).chunks, job, ranges, at))
  {
    hide MarkedRow, NewRow;
    var t1, t2 := Inserted(t, rows), Inserted(t, marked);
    forall id | id in t1.chunks
      ensures t2.chunks[id] == MarkedRow(t1.chunks[id], job, ranges, at)
    {
      MarkedInsertedRow(t, job, rows, marked, ranges, at, id);
    }
    assert t2.chunks == MarkedCompleted(t1.chunks, job, ranges, at);
  }

  lemma MarkedInsertedRow(t: Tables, job: JobId, rows: seq<Chunk>, marked: seq<Chunk>, ranges: seq<Range>, at: int, id: int)
    requires |rows| == |marked| && forall id :: id in t.chunks ==> id < t.nextChunk && t.chunks[id].job != job
    requires forall k :: 0 <= k < |rows| ==> marked[k] == MarkedRow(rows[k], job, ranges, at)
    requires id in Inserted(t, rows).chunks
    ensures id in Inserted(t, marked).chunks && Inserted(t, marked).chunks[id] == MarkedRow(Inserted(t, rows).chunks[id], job, ranges, at)
  {
  }

  lemma CopyInTwoSteps(t: Tables, source: JobId, job: JobId, at: int, all: seq<Range>, completed: seq<Range>)
    requires Inv(t) && CanResubmit(t, source) && job !in t.jobs
    requires var order := ChunkOrder(t, source);
             |all| == |order| && forall k :: 0 <= k < |order| ==> order[k] in t.chunks && all[k] == t.chunks[order[k]].range
    requires forall r :: r in completed <==> CompletedIn(t, source, r)
    ensures var t1 := Inserted(Submitted(t, job, t.jobs[source].manifest, t.jobs[source].priority, at, []), FreshChunks(job, all));
            t1.(chunks := MarkedCompleted(t1.chunks, job, completed, at)) == Apply(t, Resubmit(source, job, at))
  {
    hide MarkedRow, HasChunk, CompletedIn, RangesDisjoint, JobsOk, RowOk;
    var m, p := t.jobs[source].manifest, t.jobs[source].priority;
    var rows, copied := FreshChunks(job, all), CopiedChunks(t, source, job, at);
    var t0 := Submitted(t, job, m, p, at, []);
    assert t0.chunks == t.chunks;
    InsertNothingFirst(t, job, m, p, at, copied);
    forall k | 0 <= k < |rows|
      ensures copied[k] == MarkedRow(rows[k], job, completed, at)
    {
      CopiedRow(t, source, job, at, all, completed, k);
    }
    MarkedInserted(t0, job, rows, copied, completed, at);
  }

  /** The chunk went to a peer that could work, that it was there for, and that had nothing to do before
      it. */
  ghost predicate JustlySent(t: Tables, t': Tables, peers: seq<Peer>, d: Dispatch, held: set<NodeId>, tracker: Tracker, now: int)
    reads tracker
  {
    exists p :: p in peers && p.id == d.node && Eligible(t, d.chunk, p.id, p.tags) && Ahead(t, t', d.chunk, p) && CanWork(p, held, tracker, now)
  }

  /** The peer could have been given work, got none, and there is some, although nothing was in the way. */
  ghost predicate Neglected(t: Tables, t': Tables, p: Peer, sent: seq<Dispatch>, held: set<NodeId>, tracker: Tracker, now: int)
    reads tracker
  {
    CanWork(p, held, tracker, now) && !Served(sent, p.id) && !NoWorkFor(t', p) && !Stuck(t, t', p)
  }

  ghost function NodesOf(sent: seq<Dispatch>): set<NodeId> { set d | d in sent :: d.node }

  /** The pass after its first i peers. */
  ghost predicate PassSoFar(t: Tables, t': Tables, peers: seq<Peer>, i: nat, sent: seq<Dispatch>, kept: map<NodeId, int>,
                            entries: map<NodeId, int>, tracker: Tracker, now: int)
    requires i <= |peers|
    reads tracker
  {
    && entries == kept + (map n | n in NodesOf(sent) :: now)
    && (forall k :: 0 <= k < |sent| ==> JustlySent(t, t', peers, sent[k], kept.Keys, tracker, now))
    && (forall k :: 0 <= k < i ==> !Neglected(t, t', peers[k], sent, kept.Keys, tracker, now))
  }

  lemma EntriesGrow(kept: map<NodeId, int>, sent: seq<Dispatch>, d: Dispatch, now: int)
    ensures kept + (map n | n in NodesOf(sent + [d]) :: now) == (kept + map n | n in NodesOf(sent) :: now)[d.node := now]
  {
    ServedGrows(sent, d);
  }

  lemma SentJustly(t: Tables, t': Tables, peers: seq<Peer>, i: nat, before: seq<Dispatch>, d: Dispatch, held: set<NodeId>, tracker: Tracker, now: int)
    requires i < |peers| && forall k :: 0 <= k < |before| ==> JustlySent(t, t', peers, before[k], held, tracker, now)
    requires d.node == peers[i].id && Eligible(t, d.chunk, peers[i].id, peers[i].tags)
    requires Ahead(t, t', d.chunk, peers[i]) && CanWork(peers[i], held, tracker, now)
    ensures forall k :: 0 <= k < |before + [d]| ==> JustlySent(t, t', peers, (before + [d])[k], held, tracker, now)
  {
    hide Eligible, Ahead, CanWork;
    assert peers[i] in peers;
    assert JustlySent(t, t', peers, d, held, tracker, now);
  }

  lemma StillJust(t: Tables, was: Tables, t': Tables, peers: seq<Peer>, d: Dispatch, held: set<NodeId>, tracker: Tracker, now: int)
    requires JustlySent(t, was, peers, d, held, tracker, now)
    requires forall id, node, tags :: Eligible(t', id, node, tags) ==> Eligible(was, id, node, tags)
    ensures JustlySent(t, t', peers, d, held, tracker, now)
  {
    hide CanWork, CandidateLess;
    var p :| p in peers && p.id == d.node && Eligible(t, d.chunk, p.id, p.tags) && Ahead(t, was, d.chunk, p) && CanWork(p, held, tracker, now);
    assert Ahead(t, t', d.chunk, p);
  }

  /** Who was sent something is alive, not stopped and not rendering, has a healthy agent that is ready, and is
      neither suspended nor in cooldown. */
  ghost predicate SentToTheReady(peers: seq<Peer>, sent: seq<Dispatch>, tracker: Tracker, now: int)
    reads tracker
  {
    forall d :: d in sent ==>
      (exists p :: p in peers && p.id == d.node && p.alive && !p.stopped && !p.rendering && p.agentOk && p.ready
                   && !tracker.IsSuspended(p.id) && !tracker.IsInCooldown(p.id, now))
  }

  predicate HasPlan(t: Tables, id: ChunkId) {
    id in t.chunks && t.chunks[id].job in t.jobs && t.jobs[t.chunks[id].job].manifest.plan.Some?
  }

  /** Whoever is all that, was not given work lately, and can be sent to - it has an endpoint, or it is the local
      node and what it might get can be decoded - has no chunk left that it could be given. */
  ghost predicate TheReadyAreServed(t: Tables, t': Tables, peers: seq<Peer>, entries: map<NodeId, int>, tracker: Tracker, now: int)
    reads tracker
  {
    forall p :: && p in peers && p.id !in entries && p.alive && !p.stopped && !p.rendering && p.agentOk && p.ready
                && !tracker.IsSuspended(p.id) && !tracker.IsInCooldown(p.id, now)
                && (if p.isLocal then (forall id :: Eligible(t, id, p.id, p.tags) ==> HasPlan(t, id)) else p.reachable)
                ==> forall id :: !Eligible(t', id, p.id, p.tags)
  }

  lemma SentWell(t: Tables, t': Tables, peers: seq<Peer>, sent: seq<Dispatch>, held: set<NodeId>, tracker: Tracker, now: int)
    requires forall k :: 0 <= k < |sent| ==> JustlySent(t, t', peers, sent[k], held, tracker, now)
    ensures SentToTheReady(peers, sent, tracker, now)
  {
    hide Eligible, Ahead;
  }

  lemma LeftWell(t: Tables, t': Tables, peers: seq<Peer>, sent: seq<Dispatch>, kept: map<NodeId, int>, entries: map<NodeId, int>,
                 tracker: Tracker, now: int)
    requires forall k :: 0 <= k < |peers| ==> !Neglected(t, t', peers[k], sent, kept.Keys, tracker, now)
    requires entries == kept + map n | n in NodesOf(sent) :: now
    ensures TheReadyAreServed(t, t', peers, entries, tracker, now)
  {
    hide Ahead;
    forall node | Served(sent, node)
      ensures node in NodesOf(sent)
    {
      var k :| 0 <= k < |sent| && sent[k].node == node;
      assert sent[k] in sent;
    }
  }

  lemma TurnKeepsPass(t: Tables, was: Tables, t': Tables, peers: seq<Peer>, i: nat, before: seq<Dispatch>, d: Option<Dispatch>,
                      kept: map<NodeId, int>, entries: map<NodeId, int>, entries': map<NodeId, int>, tracker: Tracker, now: int)
    requires i < |peers| && PassSoFar(t, was, peers, i, before, kept, entries, tracker, now)
    requires entries' == if d.Some? then entries[peers[i].id := now] else entries
    requires d.Some? ==> d.value.node == peers[i].id && Eligible(t, d.value.chunk, peers[i].id, peers[i].tags)
                         && Ahead(t, t', d.value.chunk, peers[i]) && CanWork(peers[i], entries.Keys, tracker, now)
    requires forall id, node, tags :: Eligible(t', id, node, tags) ==> Eligible(was, id, node, tags)
    requires d.None? && CanWork(peers[i], entries.Keys, tracker, now) ==> NoWorkFor(t', peers[i]) || Stuck(t, t', peers[i])
    ensures PassSoFar(t, t', peers, i + 1, if d.Some? then before + [d.value] else before, kept, entries', tracker, now)
  {
    hide Eligible, Stuck, NoWorkFor, JustlySent, Neglected, Ahead;
    var sent := if d.Some? then before + [d.value] else before;
    forall k | 0 <= k < |before|
      ensures JustlySent(t, t', peers, before[k], kept.Keys, tracker, now)
    {
      StillJust(t, was, t', peers, before[k], kept.Keys, tracker, now);
    }
    if d.Some? {
      ServedGrows(before, d.value);
      EntriesGrow(kept, before, d.value, now);
      SentJustly(t, t', peers, i, before, d.value, kept.Keys, tracker, now);
    }
    assert entries.Keys == kept.Keys + NodesOf(before);
    NeglectNoneMore(t, was, t', peers, i, before, sent, kept.Keys, tracker, now);
  }

  lemma NeglectNoneMore(t: Tables, was: Tables, t': Tables, peers: seq<Peer>, i: nat, before: seq<Dispatch>, sent: seq<Dispatch>,
                        held: set<NodeId>, tracker: Tracker, now: int)
    requires i < |peers|
    requires forall k :: 0 <= k < i ==> !Neglected(t, was, peers[k], before, held, tracker, now)
    requires forall id, node, tags :: Eligible(t', id, node, tags) ==> Eligible(was, id, node, tags)
    requires forall node :: Served(before, node) ==> Served(sent, node)
    requires Served(sent, peers[i].id)
             || (CanWork(peers[i], held + NodesOf(before), tracker, now) ==> NoWorkFor(t', peers[i]) || Stuck(t, t', peers[i]))
    ensures forall k :: 0 <= k < i + 1 ==> !Neglected(t, t', peers[k], sent, held, tracker, now)
  {
    hide Stuck;
    forall k | 0 <= k < i
      ensures !Neglected(t, t', peers[k], sent, held, tracker, now)
    {
      StillStuck(t, was, t', peers[k]);
    }
  }

  lemma StillStuck(t: Tables, was: Tables, t': Tables, p: Peer)
    requires forall id, node, tags :: Eligible(t', id, node, tags) ==> Eligible(was, id, node, tags)
    ensures Stuck(t, was, p) ==> Stuck(t, t', p)
  {
    hide CandidateLess;
    if p.isLocal && Stuck(t, was, p) {
      var id :| Eligible(t, id, p.id, p.tags) && t.jobs[t.chunks[id].job].manifest.plan.None? && Ahead(t, was, id, p);
      assert Ahead(t, t', id, p);
    }
  }

  lemma ServedGrows(sent: seq<Dispatch>, d: Dispatch)
    ensures forall node :: Served(sent, node) ==> Served(sent + [d], node)
    ensures Served(sent + [d], d.node)
    ensures NodesOf(sent + [d]) == NodesOf(sent) + {d.node}
  {
    var after := sent + [d];
    assert after[|sent|] == d;
    forall node | Served(sent, node)
      ensures Served(after, node)
    {
      var k :| 0 <= k < |sent| && sent[k].node == node;
      assert after[k].node == node;
    }
  }

  lemma RestampKeepsInv(t: Tables, id: ChunkId)
    requires Inv(t) && id in t.chunks
    ensures Inv(WithRow(t, id, t.chunks[id].(epoch := JobEpoch(t, t.chunks[id].job))))
  {
    RewriteKeepsInv(t, WithRow(t, id, t.chunks[id].(epoch := JobEpoch(t, t.chunks[id].job))));
  }

  lemma FrameStepsAdmitInv(t: Tables, pairs: set<(JobId, int)>)
    requires Inv(t)
    ensures Inv(RecordedAll(t, pairs))
  {
    forall id | id in t.chunks
      ensures FramesFit(RecordedAll(t, pairs).chunks[id])
    {
      FramesStayFit(t.chunks[id], FramesOf(pairs, t.chunks[id].job));
    }
    RewriteKeepsInv(t, RecordedAll(t, pairs));
  }

  lemma InsertNothingFirst(t: Tables, job: JobId, m: Manifest, priority: int, at: int, rows: seq<Chunk>)
    requires job !in t.jobs
    ensures Inserted(Submitted(t, job, m, priority, at, []), rows) == Submitted(t, job, m, priority, at, rows)
  {
    var t1 := Submitted(t, job, m, priority, at, []);
    assert t1.chunks == t.chunks;
  }
}
