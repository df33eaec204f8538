// The per-profile provider scheduler of the gateway: a bounded number of running factories, a bounded
// queue, and batches that can be closed or aborted at any time.
module ProviderScheduler {
  import opened Outcomes

  type Scope = nat
  type JobId = nat
  type BatchId = nat

  datatype JobState = Queued | Active | Settled

  /** `settles` counts how often the job's promise was resolved or rejected; `returned` tells that its
      factory is done, so that its finalizer may run. */
  datatype Job = Job(batch: BatchId, scope: Scope, state: JobState, publicSettled: bool, settles: nat, returned: bool)

  datatype Batch = Batch(scope: Scope, hasSignal: bool, aborted: bool, closed: bool, jobs: set<JobId>)

  datatype Scheduler = Scheduler(active: nat, queue: seq<JobId>)

  datatype World = World(
    maxConcurrency: nat,
    maxQueue: nat,
    jobs: map<JobId, Job>,
    batches: map<BatchId, Batch>,
    schedulers: map<Scope, Scheduler>,
    nextJob: JobId)

  datatype ScheduleResult = Scheduled(job: JobId) | BatchAborted | QueueFull

  // ---------------------------------------------------------------- jobs

  predicate Stopped(b: Batch) {
    b.closed || (b.hasSignal && b.aborted)
  }

  /** _settleProviderJob: the caller's promise is settled once, later outcomes are ignored. */
  function SettleJob(w: World, j: JobId): World
    requires j in w.jobs
  {
    if w.jobs[j].publicSettled then w
    else w.(jobs := w.jobs[j := w.jobs[j].(publicSettled := true, settles := w.jobs[j].settles + 1)])
  }

  function LeaveBatch(w: World, j: JobId): World
    requires j in w.jobs && w.jobs[j].batch in w.batches
  {
    var b := w.jobs[j].batch;
    w.(batches := w.batches[b := w.batches[b].(jobs := w.batches[b].jobs - {j})])
  }

  /** _rejectQueuedProviderJob. */
  function RejectQueued(w: World, j: JobId): World
    requires j in w.jobs && w.jobs[j].batch in w.batches
  {
    if w.jobs[j].state != Queued then w
    else SettleJob(LeaveBatch(w.(jobs := w.jobs[j := w.jobs[j].(state := Settled)]), j), j)
  }

  /** _startProviderJob up to the point where the factory runs. */
  function StartJob(w: World, j: JobId): World
    requires j in w.jobs && w.jobs[j].batch in w.batches && w.jobs[j].scope in w.schedulers
  {
    var job := w.jobs[j];
    if job.state != Queued then w
    else if Stopped(w.batches[job.batch]) then RejectQueued(w, j)
    else
      var s := w.schedulers[job.scope];
      w.(jobs := w.jobs[j := job.(state := Active)],
        schedulers := w.schedulers[job.scope := s.(active := s.active + 1)])
  }

  predicate Startable(w: World, j: JobId, scope: Scope) {
    j in w.jobs && w.jobs[j].batch in w.batches && w.jobs[j].scope == scope
  }

  /** The head of the queue is taken off it and started. */
  function StartNext(w: World, scope: Scope): World
    requires scope in w.schedulers && |w.schedulers[scope].queue| > 0
  {
    var s := w.schedulers[scope];
    var w1 := w.(schedulers := w.schedulers[scope := s.(queue := s.queue[1..])]);
    if Startable(w, s.queue[0], scope) then StartJob(w1, s.queue[0]) else w1
  }

  lemma StartNextShrinks(w: World, scope: Scope)
    requires scope in w.schedulers && |w.schedulers[scope].queue| > 0
    ensures
      var w' := StartNext(w, scope);
      && scope in w'.schedulers && w'.schedulers[scope].queue == w.schedulers[scope].queue[1..]
      && w'.maxConcurrency == w.maxConcurrency
  {
  }

  /** The loop of _drainProviderScheduler. */
  function FillSlots(w: World, scope: Scope): World
    requires scope in w.schedulers
    ensures scope in FillSlots(w, scope).schedulers
    decreases |w.schedulers[scope].queue|
  {
    var s := w.schedulers[scope];
    if s.active >= w.maxConcurrency || |s.queue| == 0 then w
    else
      StartNextShrinks(w, scope);
      FillSlots(StartNext(w, scope), scope)
  }

  function DropIfIdle(w: World, scope: Scope): World
    requires scope in w.schedulers
  {
    if w.schedulers[scope] == Scheduler(0, []) then w.(schedulers := w.schedulers - {scope}) else w
  }

  /** _drainProviderScheduler. */
  function Drain(w: World, scope: Scope): World
    requires scope in w.schedulers
  {
    DropIfIdle(FillSlots(w, scope), scope)
  }

  // ---------------------------------------------------------------- cancellation

  predicate OfBatch(w: World, j: JobId, b: BatchId) {
    j in w.jobs && w.jobs[j].batch == b
  }

  /** The jobs of the queue that do not belong to the batch, in order. */
  function Retained(w: World, queue: seq<JobId>, b: BatchId): seq<JobId> {
    if |queue| == 0 then []
    else (if OfBatch(w, queue[0], b) then [] else [queue[0]]) + Retained(w, queue[1..], b)
  }

  /** Rejects the jobs of the batch among `queue`. */
  function RejectBatch(w: World, queue: seq<JobId>, b: BatchId): World
    requires b in w.batches
    decreases |queue|
  {
    if |queue| == 0 then w
    else RejectBatch(if OfBatch(w, queue[0], b) then RejectQueued(w, queue[0]) else w, queue[1..], b)
  }

  /** A job whose caller is told, if it is active and the caller still waits. */
  function ToldJob(job: Job): Job {
    if job.state == Active && !job.publicSettled then job.(publicSettled := true, settles := job.settles + 1) else job
  }

  function Told(jobs: map<JobId, Job>, those: set<JobId>): map<JobId, Job> {
    map j | j in jobs :: if j in those then ToldJob(jobs[j]) else jobs[j]
  }

  /** Active jobs of the batch: their callers are told at once, their factories go on running. */
  function SettleActive(w: World, b: BatchId): World
    requires b in w.batches
  {
    w.(jobs := Told(w.jobs, w.batches[b].jobs))
  }

  /** _cancelProviderJobs. */
  function Cancel(w: World, b: BatchId): World
    requires b in w.batches
  {
    var scope := w.batches[b].scope;
    if scope !in w.schedulers then w
    else
      var queue := w.schedulers[scope].queue;
      var rejected := RejectBatch(w, queue, b);
      if scope !in rejected.schedulers || b !in rejected.batches then rejected
      else
        var s := rejected.schedulers[scope];
        var kept := rejected.(schedulers := rejected.schedulers[scope := s.(queue := Retained(w, queue, b))]);
        Drain(SettleActive(kept, b), scope)
  }

  // ---------------------------------------------------------------- calls

  /** _createProviderBatch. */
  function CreateBatch(w: World, b: BatchId, scope: Scope, hasSignal: bool, aborted: bool): World {
    if b in w.batches then w
    else
      var w1 := w.(batches := w.batches[b := Batch(scope, hasSignal, hasSignal && aborted, false, {})]);
      if hasSignal && aborted then Cancel(w1, b) else w1
  }

  /** _closeProviderBatch. */
  function CloseBatch(w: World, b: BatchId): World {
    if b !in w.batches || w.batches[b].closed then w
    else Cancel(w.(batches := w.batches[b := w.batches[b].(closed := true)]), b)
  }

  /** The caller's signal fires; a closed batch no longer listens to it. */
  function AbortBatch(w: World, b: BatchId): World {
    if b !in w.batches || !w.batches[b].hasSignal || w.batches[b].aborted then w
    else
      var w1 := w.(batches := w.batches[b := w.batches[b].(aborted := true)]);
      if w.batches[b].closed then w1 else Cancel(w1, b)
  }

  function SchedulerOf(w: World, scope: Scope): Scheduler {
    if scope in w.schedulers then w.schedulers[scope] else Scheduler(0, [])
  }

  /** _scheduleProvider. */
  function Schedule(w: World, b: BatchId): (World, ScheduleResult)
    requires b in w.batches
  {
    var batch := w.batches[b];
    if batch.hasSignal && batch.aborted then (w, BatchAborted)
    else
      var s := SchedulerOf(w, batch.scope);
      var w1 := w.(schedulers := w.schedulers[batch.scope := s]);
      if s.active >= w.maxConcurrency && |s.queue| >= w.maxQueue then (w1, QueueFull)
      else
        var j := w.nextJob;
        var w2 := w1.(jobs := w.jobs[j := Job(b, batch.scope, Queued, false, 0, false)],
                      batches := w.batches[b := batch.(jobs := batch.jobs + {j})],
                      nextJob := j + 1);
        if s.active < w.maxConcurrency then (StartJob(w2, j), Scheduled(j))
        else (w2.(schedulers := w2.schedulers[batch.scope := s.(queue := s.queue + [j])]), Scheduled(j))
  }

  /** The factory of an active job resolves or rejects. */
  function FactoryReturns(w: World, j: JobId): World {
    if j !in w.jobs || w.jobs[j].state != Active || w.jobs[j].returned then w
    else SettleJob(w.(jobs := w.jobs[j := w.jobs[j].(returned := true)]), j)
  }

  /** The finalizer of the job. */
  function Finalize(w: World, j: JobId): World {
    if j !in w.jobs || w.jobs[j].state != Active || !w.jobs[j].returned || w.jobs[j].batch !in w.batches
       || w.jobs[j].scope !in w.schedulers then w
    else
      var scope := w.jobs[j].scope;
      var w1 := LeaveBatch(w.(jobs := w.jobs[j := w.jobs[j].(state := Settled)]), j);
      var s := w.schedulers[scope];
      Drain(w1.(schedulers := w.schedulers[scope := s.(active := Max(0, s.active - 1))]), scope)
  }

  datatype Op =
    | DoCreate(batch: BatchId, scope: Scope, hasSignal: bool, aborted: bool)
    | DoClose(batch: BatchId)
    | DoAbort(batch: BatchId)
    | DoSchedule(batch: BatchId)
    | DoReturn(job: JobId)
    | DoFinalize(job: JobId)

  function Apply(w: World, op: Op): World {
    match op
    case DoCreate(b, scope, hasSignal, aborted) => CreateBatch(w, b, scope, hasSignal, aborted)
    case DoClose(b) => CloseBatch(w, b)
    case DoAbort(b) => AbortBatch(w, b)
    case DoSchedule(b) => if b in w.batches then Schedule(w, b).0 else w
    case DoReturn(j) => FactoryReturns(w, j)
    case DoFinalize(j) => Finalize(w, j)
  }

  function Run(w: World, ops: seq<Op>): World
    decreases |ops|
  {
    if |ops| == 0 then w else Apply(Run(w, ops[..|ops| - 1]), ops[|ops| - 1])
  }

  function Initial(maxConcurrency: nat, maxQueue: nat): World {
    World(maxConcurrency, maxQueue, map[], map[], map[], 0)
  }

  // ---------------------------------------------------------------- invariant

  /** The factories running for a profile. */
  ghost function Running(w: World, scope: Scope): set<JobId> {
    set j | j in w.jobs && w.jobs[j].scope == scope && w.jobs[j].state == Active
  }

  /** A promise is settled at most once, and by the time the job is over. */
  predicate PromiseOk(job: Job) {
    && job.settles == (if job.publicSettled then 1 else 0)
    && (job.state == Settled ==> job.publicSettled)
    && (job.state == Queued ==> !job.publicSettled)
    && (job.returned ==> job.state != Queued && job.publicSettled)
  }

  ghost predicate JobOk(w: World, j: JobId) {
    && j in w.jobs && j < w.nextJob && PromiseOk(w.jobs[j])
    && w.jobs[j].batch in w.batches && w.batches[w.jobs[j].batch].scope == w.jobs[j].scope
    && (j in w.batches[w.jobs[j].batch].jobs <==> w.jobs[j].state != Settled)
    && (w.jobs[j].state != Settled ==> w.jobs[j].scope in w.schedulers)
  }

  ghost predicate JobsOk(w: World) {
    && (forall j :: j in w.jobs ==> JobOk(w, j))
    && (forall b, j :: b in w.batches && j in w.batches[b].jobs ==> OfBatch(w, j, b))
  }

  /** The queue lists the queued jobs of the profile, oldest first. */
  ghost predicate QueueOk(w: World, scope: Scope, queue: seq<JobId>) {
    && (forall i, k :: 0 <= i < k < |queue| ==> queue[i] < queue[k])
    && (forall j :: j in queue <==> j in w.jobs && w.jobs[j].scope == scope && w.jobs[j].state == Queued)
  }

  ghost predicate SlotsOk(w: World, scope: Scope, s: Scheduler) {
    s.active == |Running(w, scope)| && s.active <= w.maxConcurrency && |s.queue| <= w.maxQueue
  }

  ghost predicate SchedulersOk(w: World) {
    forall p :: p in w.schedulers ==> QueueOk(w, p, w.schedulers[p].queue) && SlotsOk(w, p, w.schedulers[p])
  }

  /** Nobody waits while a slot is free. */
  ghost predicate Busy(w: World, but: Option<Scope>) {
    forall p :: p in w.schedulers && Some(p) != but && |w.schedulers[p].queue| > 0 ==>
      w.schedulers[p].active == w.maxConcurrency
  }

  /** A closed or aborted batch has no job that is queued or whose caller still waits. */
  predicate Quiet(job: Job) {
    job.state != Queued && job.publicSettled
  }

  /** No stopped batch, apart from the excused ones, has such a job. */
  ghost predicate StoppedOk(w: World, excused: set<BatchId>) {
    forall j :: j in w.jobs && InStoppedBatch(w, w.jobs[j].batch) && w.jobs[j].batch !in excused ==> Quiet(w.jobs[j])
  }

  predicate InStoppedBatch(w: World, b: BatchId) {
    b in w.batches && Stopped(w.batches[b])
  }

  ghost predicate Sound(w: World) {
    JobsOk(w) && SchedulersOk(w)
  }

  /** What holds in every reachable world, however the scheduler is used. */
  ghost predicate Books(w: World) {
    Sound(w) && Busy(w, None)
  }

  ghost predicate Inv(w: World, excused: set<BatchId>) {
    Books(w) && StoppedOk(w, excused)
  }
}
