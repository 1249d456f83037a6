/** The leader's database - the `jobs` and `chunks` tables - and every operation the leader performs
    on it, as one state machine. Each step is atomic and total: a step whose guard does not hold
    leaves the tables as they are, as an SQL UPDATE that matches no row does. */
module FarmTables {
  import opened Wrappers
  import opened Ordering
  import opened ChunkPlan

  type JobId = string
  type ChunkId = int
  type NodeId = string // "" stands for a reporter that does not identify itself
  type Tag = string

  // ---- Rows ----

  datatype Plan = Plan(first: int, last: int, size: int, maxRetries: int)

  /** What the leader reads out of a stored manifest: the tags that dispatch requires, and the
      decoded frame plan. Either reading fails on its own when the text is malformed. */
  datatype Manifest = Manifest(requiredTags: Option<seq<Tag>>, plan: Option<Plan>)

  datatype JobStatus = Active | Paused | Cancelled | Archived | Finished | Broken

  datatype Job = Job(
    manifest: Manifest,
    status: JobStatus,
    priority: int,
    submittedAt: int,
    sortKey: int,
    epoch: int,
    row: int)

  datatype ChunkState = Pending | Assigned | Completed | Failed | Stopped

  datatype Chunk = Chunk(
    job: JobId,
    range: Range,
    state: ChunkState,
    assignee: Option<NodeId>,
    assignedAt: Option<int>,
    completedAt: Option<int>,
    retries: int,
    frames: seq<int>,
    failedOn: seq<NodeId>,
    epoch: int)

  datatype Tables = Tables(
    jobs: map<JobId, Job>,
    chunks: map<ChunkId, Chunk>,
    nextRow: int,
    nextChunk: ChunkId)

  const EMPTY := Tables(map[], map[], 0, 0)

  const DEFAULT_MAX_RETRIES := 3

  // ---- Display and dispatch order ----

  function JobKey(j: Job): Key { Key(j.priority, j.sortKey, j.submittedAt, j.row) }

  function JobKeys(jobs: map<JobId, Job>): map<JobId, Key> {
    map j | j in jobs :: JobKey(jobs[j])
  }

  function ChunkKeys(t: Tables, job: JobId): map<ChunkId, Key> {
    map id | id in t.chunks && t.chunks[id].job == job :: Key(t.chunks[id].range.first, id, 0, 0)
  }

  function ChunkOrder(t: Tables, job: JobId): seq<ChunkId> { Sorted(ChunkKeys(t, job)) }

  // ---- Messages and steps ----

  /** A worker's word that it finished, or failed, a chunk. A negative epoch marks a worker that
      cannot echo one. */
  datatype Report = Report(node: NodeId, job: JobId, range: Range, epoch: int)

  datatype EditMode = Continue | Restart | StartOver

  datatype Control = Pause | Resume | Cancel | Archive

  datatype Rank = Rank(priority: int, sortKey: int)

  datatype Step =
    | Submit(job: JobId, manifest: Manifest, priority: int, at: int)
    | Resubmit(source: JobId, job: JobId, at: int)
    | Assign(id: ChunkId, node: NodeId, tags: seq<Tag>, at: int)
    | Complete(report: Report, at: int)
    | Fail(report: Report)
    | Revert(job: JobId, range: Range)
    | Reclaim(node: NodeId)
    | Stop(id: ChunkId)
    | Reassign(id: ChunkId, node: NodeId, at: int)
    | RetryFailed(job: JobId)
    | RequeueAll(job: JobId)
    | Edit(job: JobId, manifest: Manifest, mode: EditMode, priority: int)
    | CheckCompletion(job: JobId)
    | AddFrames(job: JobId, epoch: int, batch: seq<int>)
    | Steer(job: JobId, control: Control)
    | Reorder(ranks: map<JobId, Rank>)
    | Delete(job: JobId)

  // ---- Guards ----

  predicate AllRequired(required: seq<Tag>, tags: seq<Tag>) {
    forall tag | tag in required :: tag in tags
  }

  /** The chunks the dispatcher may hand to a node. */
  predicate Eligible(t: Tables, id: ChunkId, node: NodeId, tags: seq<Tag>) {
    && id in t.chunks
    && t.chunks[id].state == Pending
    && t.chunks[id].job in t.jobs
    && var job := t.jobs[t.chunks[id].job];
    && job.status == Active
    && job.manifest.requiredTags.Some?
    && AllRequired(job.manifest.requiredTags.value, tags)
    && (node != "" ==> node !in t.chunks[id].failedOn)
  }

  /** The fence: the report comes from the chunk's assignee and carries the epoch it was
      dispatched with. Each half is skipped for a worker that does not send it. */
  predicate Current(c: Chunk, r: Report) {
    && c.job == r.job && c.range == r.range
    && c.state == Assigned
    && (r.node == "" || c.assignee == Some(r.node))
    && (r.epoch < 0 || c.epoch == r.epoch)
  }

  predicate AnyCurrent(t: Tables, r: Report) {
    exists id | id in t.chunks :: Current(t.chunks[id], r)
  }

  /** A missing job reads as epoch 0. */
  function JobEpoch(t: Tables, job: JobId): int {
    if job in t.jobs then t.jobs[job].epoch else 0
  }

  predicate EpochCurrent(t: Tables, job: JobId, epoch: int) {
    epoch < 0 || JobEpoch(t, job) == epoch
  }

  function MaxRetries(t: Tables, job: JobId): int {
    if job in t.jobs && t.jobs[job].manifest.plan.Some? then t.jobs[job].manifest.plan.value.maxRetries
    else DEFAULT_MAX_RETRIES
  }

  predicate IsOpen(c: Chunk) { c.state == Pending || c.state == Assigned }

  predicate HasChunk(t: Tables, job: JobId, states: set<ChunkState>) {
    exists id | id in t.chunks :: t.chunks[id].job == job && t.chunks[id].state in states
  }

  // ---- Effects on one row ----

  function FreshChunk(job: JobId, range: Range): Chunk {
    Chunk(job, range, Pending, None, None, None, 0, [], [], 0)
  }

  function Unassigned(c: Chunk): Chunk {
    c.(state := Pending, assignee := None, assignedAt := None)
  }

  function CompletedBy(c: Chunk, r: Report, at: int): Chunk {
    if Current(c, r) then c.(state := Completed, completedAt := Some(at)) else c
  }

  /** The first row of a job with this range: the one `LIMIT 1` picks. */
  predicate IsLowest(t: Tables, id: ChunkId, job: JobId, range: Range) {
    && id in t.chunks && t.chunks[id].job == job && t.chunks[id].range == range
    && forall other | other in t.chunks :: t.chunks[other].job == job && t.chunks[other].range == range ==> id <= other
  }

  function Blacklisting(c: Chunk, node: NodeId): Chunk {
    if node == "" || node in c.failedOn then c else c.(failedOn := c.failedOn + [node])
  }

  /** One more failure: back to the pool while the budget lasts, else failed for good. A failed
      row keeps its last assignee. */
  function FailedOnce(c: Chunk, maxRetries: int): Chunk {
    if c.retries + 1 < maxRetries then Unassigned(c).(retries := c.retries + 1)
    else c.(state := Failed, retries := c.retries + 1)
  }

  function FailedBy(t: Tables, id: ChunkId, r: Report): Chunk
    requires id in t.chunks
  {
    var c := t.chunks[id];
    var marked := if IsLowest(t, id, r.job, r.range) then Blacklisting(c, r.node) else c;
    if c.job == r.job && c.range == r.range && c.state == Assigned
    then FailedOnce(marked, MaxRetries(t, r.job))
    else marked
  }

  function Reverted(c: Chunk, job: JobId, range: Range): Chunk {
    if c.job == job && c.range == range then Unassigned(c) else c
  }

  function Reclaimed(c: Chunk, node: NodeId): Chunk {
    if c.state == Assigned && c.assignee == Some(node) then Unassigned(c) else c
  }

  function StoppedRow(c: Chunk): Chunk {
    if IsOpen(c) then c.(state := Stopped, assignee := None, assignedAt := None) else c
  }

  predicate Reassignable(c: Chunk) { c.state in {Assigned, Failed, Stopped} }

  function Retried(c: Chunk, job: JobId): Chunk {
    if c.job == job && c.state == Failed then Unassigned(c).(retries := 0, frames := []) else c
  }

  function Requeued(c: Chunk, job: JobId): Chunk {
    if c.job == job then Unassigned(c).(completedAt := None, retries := 0, frames := [], failedOn := []) else c
  }

  function Withdrawn(c: Chunk, job: JobId): Chunk {
    if c.job == job && c.state == Assigned then Unassigned(c) else c
  }

  function Ascending(frames: set<int>): seq<int> {
    Sorted(map f | f in frames :: Key(f, 0, 0, 0))
  }

  /** The frames of a chunk together with those of a batch that fall in its range, in order. */
  function FramesWith(c: Chunk, batch: set<int>): seq<int> {
    var news := set f | f in batch && c.range.Has(f) && f !in c.frames;
    if news == {} then c.frames else Ascending((set f | f in c.frames) + news)
  }

  function WithFrames(c: Chunk, job: JobId, batch: set<int>): Chunk {
    if c.job == job then c.(frames := FramesWith(c, batch)) else c
  }

  // ---- Effects on the tables ----

  /** The rows without those of a job. */
  function OfOthers(chunks: map<ChunkId, Chunk>, job: JobId): map<ChunkId, Chunk> {
    map id | id in chunks && chunks[id].job != job :: chunks[id]
  }

  function AllWithdrawn(chunks: map<ChunkId, Chunk>, job: JobId): map<ChunkId, Chunk> {
    map id | id in chunks :: Withdrawn(chunks[id], job)
  }

  function WithStatus(t: Tables, job: JobId, status: JobStatus): Tables {
    if job in t.jobs then t.(jobs := t.jobs[job := t.jobs[job].(status := status)]) else t
  }

  function WithRow(t: Tables, id: ChunkId, c: Chunk): Tables { t.(chunks := t.chunks[id := c]) }

  function NewRow(rows: seq<Chunk>, base: ChunkId, id: ChunkId): Chunk
    requires base <= id < base + |rows|
  {
    rows[id - base]
  }

  /** Fresh rows take the next ids in turn; ids are never reused. */
  function Inserted(t: Tables, rows: seq<Chunk>): Tables {
    t.(chunks := t.chunks + (map id | t.nextChunk <= id < t.nextChunk + |rows| :: NewRow(rows, t.nextChunk, id)),
       nextChunk := t.nextChunk + |rows|)
  }

  function FreshChunks(job: JobId, ranges: seq<Range>): seq<Chunk> {
    seq(|ranges|, i requires 0 <= i < |ranges| => FreshChunk(job, ranges[i]))
  }

  function PlannedChunks(job: JobId, p: Plan): seq<Chunk> {
    FreshChunks(job, Chunks(p.first, p.last, p.size))
  }

  /** A new job joins the back of its priority group; an id that is taken is refused. */
  function Submitted(t: Tables, job: JobId, manifest: Manifest, priority: int, at: int, rows: seq<Chunk>): Tables {
    if job in t.jobs then t else
      Inserted(t.(jobs := t.jobs[job := Job(manifest, Active, priority, at, at, 0, t.nextRow)],
                  nextRow := t.nextRow + 1), rows)
  }

  /** The rows of a copy of `source`: the same ranges, those already rendered marked completed. */
  function CopiedChunks(t: Tables, source: JobId, job: JobId, at: int): seq<Chunk> {
    var order := ChunkOrder(t, source);
    seq(|order|, i requires 0 <= i < |order| =>
      assert order[i] in order;
      var c := FreshChunk(job, t.chunks[order[i]].range);
      if exists id | id in t.chunks :: t.chunks[id].job == source && t.chunks[id].range == c.range && t.chunks[id].state == Completed
      then c.(state := Completed, completedAt := Some(at)) else c)
  }

  predicate CanResubmit(t: Tables, source: JobId) {
    && source in t.jobs && t.jobs[source].manifest.plan.Some?
    && HasChunk(t, source, {Pending, Assigned, Failed, Stopped})
  }

  function ReassignedTo(t: Tables, id: ChunkId, node: NodeId, at: int): Tables {
    if !(id in t.chunks && Reassignable(t.chunks[id])) then t
    else if node != "" then
      WithRow(t, id, t.chunks[id].(state := Assigned, assignee := Some(node), assignedAt := Some(at)))
    else
      var job := t.chunks[id].job;
      var t' := WithRow(t, id, Unassigned(t.chunks[id]));
      if job in t.jobs && t.jobs[job].status in {Finished, Broken} then WithStatus(t', job, Active) else t'
  }

  /** An edit rewrites the manifest in place. Restarting also bumps the epoch and withdraws what is
      in flight; starting over bumps it and replaces every chunk. */
  function Edited(t: Tables, job: JobId, manifest: Manifest, mode: EditMode, priority: int): Tables {
    if manifest.plan.None? || job !in t.jobs then t else
      var was := t.jobs[job];
      var kept := was.(manifest := manifest, priority := priority, sortKey := was.submittedAt);
      var bumped := kept.(epoch := was.epoch + 1, status := Active);
      match mode
      case Continue => t.(jobs := t.jobs[job := kept])
      case Restart =>
        t.(jobs := t.jobs[job := bumped],
           chunks := AllWithdrawn(t.chunks, job))
      case StartOver =>
        Inserted(t.(jobs := t.jobs[job := bumped],
                    chunks := OfOthers(t.chunks, job)),
                 PlannedChunks(job, manifest.plan.value))
  }

  /** An active job with nothing pending or in flight is over; it failed if any chunk did. */
  function Checked(t: Tables, job: JobId): Tables {
    if job in t.jobs && t.jobs[job].status == Active && !HasChunk(t, job, {Pending, Assigned})
    then WithStatus(t, job, if HasChunk(t, job, {Failed}) then Broken else Finished)
    else t
  }

  function ControlStatus(c: Control): JobStatus {
    match c
    case Pause => Paused
    case Resume => Active
    case Cancel => Cancelled
    case Archive => Archived
  }

  function Reranked(jobs: map<JobId, Job>, ranks: map<JobId, Rank>): map<JobId, Job> {
    map j | j in jobs ::
      if j in ranks then jobs[j].(priority := ranks[j].priority, sortKey := ranks[j].sortKey) else jobs[j]
  }

  // ---- The state machine ----

  function Apply(t: Tables, s: Step): Tables {
    match s
    case Submit(job, manifest, priority, at) =>
      if manifest.plan.Some? then Submitted(t, job, manifest, priority, at, PlannedChunks(job, manifest.plan.value)) else t
    case Resubmit(source, job, at) =>
      if CanResubmit(t, source)
      then Submitted(t, job, t.jobs[source].manifest, t.jobs[source].priority, at, CopiedChunks(t, source, job, at))
      else t
    case Assign(id, node, tags, at) =>
      if Eligible(t, id, node, tags)
      then WithRow(t, id, t.chunks[id].(state := Assigned, assignee := Some(node), assignedAt := Some(at),
                                        epoch := JobEpoch(t, t.chunks[id].job)))
      else t
    case Complete(r, at) =>
      t.(chunks := map id | id in t.chunks :: CompletedBy(t.chunks[id], r, at))
    case Fail(r) =>
      if AnyCurrent(t, r) then t.(chunks := map id | id in t.chunks :: FailedBy(t, id, r)) else t
    case Revert(job, range) =>
      t.(chunks := map id | id in t.chunks :: Reverted(t.chunks[id], job, range))
    case Reclaim(node) =>
      t.(chunks := map id | id in t.chunks :: Reclaimed(t.chunks[id], node))
    case Stop(id) =>
      if id in t.chunks then WithRow(t, id, StoppedRow(t.chunks[id])) else t
    case Reassign(id, node, at) => ReassignedTo(t, id, node, at)
    case RetryFailed(job) =>
      if HasChunk(t, job, {Failed})
      then WithStatus(t.(chunks := map id | id in t.chunks :: Retried(t.chunks[id], job)), job, Active)
      else t
    case RequeueAll(job) =>
      WithStatus(t.(chunks := map id | id in t.chunks :: Requeued(t.chunks[id], job)), job, Active)
    case Edit(job, manifest, mode, priority) => Edited(t, job, manifest, mode, priority)
    case CheckCompletion(job) => Checked(t, job)
    case AddFrames(job, epoch, batch) =>
      if EpochCurrent(t, job, epoch)
      then t.(chunks := map id | id in t.chunks :: WithFrames(t.chunks[id], job, set f | f in batch))
      else t
    case Steer(job, control) => WithStatus(t, job, ControlStatus(control))
    case Reorder(ranks) => t.(jobs := Reranked(t.jobs, ranks))
    case Delete(job) =>
      t.(jobs := t.jobs - {job}, chunks := OfOthers(t.chunks, job))
  }

  /** The tables after a run. */
  function Run(t: Tables, steps: seq<Step>): Tables
    decreases |steps|
  {
    if steps == [] then t else Run(Apply(t, steps[0]), steps[1..])
  }

  lemma RunCons(t: Tables, s: Step, rest: seq<Step>)
    ensures Run(t, [s] + rest) == Run(Apply(t, s), rest)
  {
    assert ([s] + rest)[1..] == rest;
  }

  lemma {:induction false} RunConcat(t: Tables, before: seq<Step>, after: seq<Step>)
    ensures Run(t, before + after) == Run(Run(t, before), after)
    decreases |before|
  {
    if before == [] {
      assert before + after == after;
    } else {
      assert (before + after)[1..] == before[1..] + after;
      RunConcat(Apply(t, before[0]), before[1..], after);
    }
  }
}
