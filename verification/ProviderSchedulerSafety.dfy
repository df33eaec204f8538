// Slots, queues and promises of the provider scheduler after every call of every run.
module ProviderSchedulerSafety {
  import opened Outcomes
  import opened ProviderScheduler

  // ---------------------------------------------------------------- one job changes

  /** The rest of the books when one job changes, and leaves its batch if it is over. */
  ghost predicate JobMoves(w: World, v: World, j: JobId) {
    && j in w.jobs && j in v.jobs && w.jobs[j].batch in w.batches
    && v.jobs == w.jobs[j := v.jobs[j]] && v.jobs[j].batch == w.jobs[j].batch && v.jobs[j].scope == w.jobs[j].scope
    && v.nextJob == w.nextJob && v.maxConcurrency == w.maxConcurrency && v.maxQueue == w.maxQueue
    && v.schedulers.Keys == w.schedulers.Keys
    && var b := w.jobs[j].batch;
       b in v.batches && v.batches == w.batches[b := w.batches[b].(jobs := v.batches[b].jobs)]
       && v.batches[b].jobs == if v.jobs[j].state == Settled then w.batches[b].jobs - {j} else w.batches[b].jobs
  }

  lemma JobsFollow(w: World, v: World, j: JobId)
    requires JobsOk(w) && JobMoves(w, v, j) && PromiseOk(v.jobs[j])
    requires w.jobs[j].state == Settled ==> v.jobs[j].state == Settled
    ensures JobsOk(v)
  {
    assert JobOk(w, j);
    forall i | i in v.jobs ensures JobOk(v, i) {
      assert JobOk(w, i);
    }
    forall b, i | b in v.batches && i in v.batches[b].jobs ensures OfBatch(v, i, b) {
      assert OfBatch(w, i, b);
    }
  }

  lemma OtherScopesFollow(w: World, v: World, j: JobId, p: Scope, s: Scheduler)
    requires JobMoves(w, v, j) && p != w.jobs[j].scope
    requires QueueOk(w, p, s.queue) && SlotsOk(w, p, s)
    ensures QueueOk(v, p, s.queue) && SlotsOk(v, p, s)
  {
    assert Running(v, p) == Running(w, p);
  }

  lemma SchedulersFollow(w: World, v: World, j: JobId)
    requires SchedulersOk(w) && JobMoves(w, v, j) && w.jobs[j].scope in v.schedulers
    requires
      var scope := w.jobs[j].scope;
      && v.schedulers == w.schedulers[scope := v.schedulers[scope]]
      && QueueOk(v, scope, v.schedulers[scope].queue) && SlotsOk(v, scope, v.schedulers[scope])
    ensures SchedulersOk(v)
  {
    hide QueueOk, SlotsOk;
    forall p | p in v.schedulers ensures QueueOk(v, p, v.schedulers[p].queue) && SlotsOk(v, p, v.schedulers[p]) {
      if p != w.jobs[j].scope {
        OtherScopesFollow(w, v, j, p, w.schedulers[p]);
      }
    }
  }

  /** The head of a queue leaves it in another state. */
  lemma HeadLeaves(w: World, v: World, scope: Scope, queue: seq<JobId>)
    requires |queue| > 0 && QueueOk(w, scope, queue) && JobMoves(w, v, queue[0]) && v.jobs[queue[0]].state != Queued
    ensures QueueOk(v, scope, queue[1..])
  {
    assert forall i :: 0 <= i < |queue[1..]| ==> queue[1..][i] == queue[i + 1];
    forall j ensures j in queue[1..] <==> j in v.jobs && v.jobs[j].scope == scope && v.jobs[j].state == Queued {
      assert queue == [queue[0]] + queue[1..];
      if j == queue[0] {
        assert queue[0] in queue;
      } else {
        assert j in queue <==> j in queue[1..];
      }
    }
  }

  lemma HeadIsQueued(w: World, scope: Scope, queue: seq<JobId>)
    requires |queue| > 0 && QueueOk(w, scope, queue)
    ensures queue[0] in w.jobs && w.jobs[queue[0]].scope == scope && w.jobs[queue[0]].state == Queued
  {
    assert queue[0] in queue;
  }

  // ---------------------------------------------------------------- starting

  lemma StartNextSound(w: World, scope: Scope)
    requires Sound(w) && scope in w.schedulers && |w.schedulers[scope].queue| > 0
    requires w.schedulers[scope].active < w.maxConcurrency
    ensures Sound(StartNext(w, scope))
  {
    hide QueueOk, PromiseOk, JobMoves, Running;
    var s := w.schedulers[scope];
    var j, v := s.queue[0], StartNext(w, scope);
    HeadIsQueued(w, scope, s.queue);
    assert JobOk(w, j);
    StartedMoves(w, scope);
    JobsFollow(w, v, j);
    HeadLeaves(w, v, scope, s.queue);
    StartedRuns(w, scope);
    SchedulersFollow(w, v, j);
  }

  lemma StartedMoves(w: World, scope: Scope)
    requires JobsOk(w) && scope in w.schedulers && |w.schedulers[scope].queue| > 0
    requires var j := w.schedulers[scope].queue[0]; j in w.jobs && w.jobs[j].scope == scope && w.jobs[j].state == Queued
    ensures
      var j, v := w.schedulers[scope].queue[0], StartNext(w, scope);
      && JobMoves(w, v, j) && PromiseOk(v.jobs[j]) && v.jobs[j].state != Queued
      && scope in v.schedulers && v.schedulers[scope].queue == w.schedulers[scope].queue[1..]
      && v.schedulers == w.schedulers[scope := v.schedulers[scope]]
      && v.schedulers[scope].active == w.schedulers[scope].active + (if v.jobs[j].state == Active then 1 else 0)
      && (v.jobs[j].state == Active ==> !Stopped(w.batches[w.jobs[j].batch]))
      && (v.jobs[j].state == Settled ==> Quiet(v.jobs[j]))
  {
    assert JobOk(w, w.schedulers[scope].queue[0]);
  }

  lemma StartedRuns(w: World, scope: Scope)
    requires scope in w.schedulers && |w.schedulers[scope].queue| > 0 && w.schedulers[scope].active < w.maxConcurrency
    requires SlotsOk(w, scope, w.schedulers[scope])
    requires
      var j, v := w.schedulers[scope].queue[0], StartNext(w, scope);
      && JobMoves(w, v, j) && w.jobs[j].scope == scope && w.jobs[j].state == Queued && scope in v.schedulers
      && v.schedulers[scope].active == w.schedulers[scope].active + (if v.jobs[j].state == Active then 1 else 0)
      && v.schedulers[scope].queue == w.schedulers[scope].queue[1..]
    ensures var v := StartNext(w, scope); SlotsOk(v, scope, v.schedulers[scope])
  {
    var j, v := w.schedulers[scope].queue[0], StartNext(w, scope);
    if v.jobs[j].state == Active {
      assert Running(v, scope) == Running(w, scope) + {j};
    } else {
      assert Running(v, scope) == Running(w, scope);
    }
  }

  /** Batches keep their signals; stopped ones stay quiet. */
  lemma StartNextStaysQuiet(w: World, scope: Scope, excused: set<BatchId>)
    requires Sound(w) && StoppedOk(w, excused) && scope in w.schedulers && |w.schedulers[scope].queue| > 0
    ensures StoppedOk(StartNext(w, scope), excused)
  {
    hide SlotsOk;
    var j, v := w.schedulers[scope].queue[0], StartNext(w, scope);
    HeadIsQueued(w, scope, w.schedulers[scope].queue);
    StartedMoves(w, scope);
    forall i | i in v.jobs && InStoppedBatch(v, v.jobs[i].batch) && v.jobs[i].batch !in excused
      ensures Quiet(v.jobs[i]) {
      assert InStoppedBatch(w, w.jobs[i].batch);
    }
  }

  lemma {:induction false} FillSlotsKeeps(w: World, scope: Scope, excused: set<BatchId>)
    requires Sound(w) && StoppedOk(w, excused) && Busy(w, Some(scope)) && scope in w.schedulers
    ensures Inv(FillSlots(w, scope), excused)
    decreases |w.schedulers[scope].queue|
  {
    hide JobsOk, QueueOk, StoppedOk, Running, StartNext;
    var s := w.schedulers[scope];
    if s.active < w.maxConcurrency && |s.queue| > 0 {
      StartNextShrinks(w, scope);
      StartNextSound(w, scope);
      StartNextStaysQuiet(w, scope, excused);
      StartNextLeavesOthers(w, scope);
      FillSlotsKeeps(StartNext(w, scope), scope, excused);
    }
  }

  lemma StartNextLeavesOthers(w: World, scope: Scope)
    requires scope in w.schedulers && |w.schedulers[scope].queue| > 0
    ensures
      var v := StartNext(w, scope);
      && v.schedulers.Keys == w.schedulers.Keys && v.maxConcurrency == w.maxConcurrency
      && forall p :: p in w.schedulers && p != scope ==> v.schedulers[p] == w.schedulers[p]
  {
  }

  /** A scheduler is dropped only when it has no running and no queued job. */
  lemma DropKeeps(w: World, scope: Scope, excused: set<BatchId>)
    requires Inv(w, excused) && scope in w.schedulers
    ensures Inv(DropIfIdle(w, scope), excused)
    ensures scope !in DropIfIdle(w, scope).schedulers <==> w.schedulers[scope] == Scheduler(0, [])
    ensures scope !in DropIfIdle(w, scope).schedulers ==>
              forall j :: j in w.jobs && w.jobs[j].scope == scope ==> w.jobs[j].state == Settled
  {
    var v := DropIfIdle(w, scope);
    if v != w {
      assert QueueOk(w, scope, []) && SlotsOk(w, scope, Scheduler(0, []));
      assert Running(w, scope) == {};
      forall j | j in w.jobs && w.jobs[j].scope == scope ensures w.jobs[j].state == Settled {
        assert j !in Running(w, scope);
      }
      DroppedJobsOk(w, v, scope);
      assert forall p :: Running(v, p) == Running(w, p);
    }
  }

  lemma DroppedJobsOk(w: World, v: World, scope: Scope)
    requires JobsOk(w) && v == w.(schedulers := w.schedulers - {scope})
    requires forall j :: j in w.jobs && w.jobs[j].scope == scope ==> w.jobs[j].state == Settled
    ensures JobsOk(v)
  {
    forall i | i in v.jobs ensures JobOk(v, i) {
      assert JobOk(w, i);
    }
    assert forall b, i :: b in v.batches && i in v.batches[b].jobs ==> OfBatch(w, i, b);
  }

  lemma DrainKeeps(w: World, scope: Scope, excused: set<BatchId>)
    requires Sound(w) && StoppedOk(w, excused) && Busy(w, Some(scope)) && scope in w.schedulers
    ensures Inv(Drain(w, scope), excused)
  {
    hide Sound, StoppedOk, Busy, FillSlots;
    FillSlotsKeeps(w, scope, excused);
    DropKeeps(FillSlots(w, scope), scope, excused);
  }

  // ---------------------------------------------------------------- cancellation

  /** A queued job of the batch after it was rejected. */
  function RejectedJob(job: Job): Job {
    if job.state != Queued then job
    else job.(state := Settled, publicSettled := true,
      settles := if job.publicSettled then job.settles else job.settles + 1)
  }

  /** What the rejection loop does: the queued jobs of the batch among `queue` are over and have left it. */
  ghost predicate Rejected(w: World, v: World, queue: seq<JobId>, b: BatchId) {
    && b in w.batches && b in v.batches && v.jobs.Keys == w.jobs.Keys
    && v == w.(jobs := v.jobs, batches := w.batches[b := w.batches[b].(jobs := v.batches[b].jobs)])
    && (forall j :: j in w.jobs ==>
          v.jobs[j] == if j in queue && w.jobs[j].batch == b then RejectedJob(w.jobs[j]) else w.jobs[j])
    && (forall j :: j in v.batches[b].jobs <==>
          j in w.batches[b].jobs && !(j in queue && OfBatch(w, j, b) && w.jobs[j].state == Queued))
  }

  lemma {:induction false} RejectBatchRejects(w: World, queue: seq<JobId>, b: BatchId)
    requires b in w.batches
    ensures Rejected(w, RejectBatch(w, queue, b), queue, b)
    decreases |queue|
  {
    if |queue| == 0 {
      assert w.batches[b := w.batches[b].(jobs := w.batches[b].jobs)] == w.batches;
    } else {
      var w1 := if OfBatch(w, queue[0], b) then RejectQueued(w, queue[0]) else w;
      RejectBatchRejects(w1, queue[1..], b);
      assert queue == [queue[0]] + queue[1..];
      RejectOne(w, w1, queue[0], b);
      RejectedInSequence(w, w1, RejectBatch(w1, queue[1..], b), queue, b);
    }
  }

  lemma RejectOne(w: World, w1: World, j: JobId, b: BatchId)
    requires b in w.batches && w1 == (if OfBatch(w, j, b) then RejectQueued(w, j) else w)
    ensures Rejected(w, w1, [j], b)
  {
    assert w.batches[b := w.batches[b].(jobs := w.batches[b].jobs)] == w.batches;
  }

  lemma RejectedInSequence(w: World, w1: World, v: World, queue: seq<JobId>, b: BatchId)
    requires |queue| > 0 && Rejected(w, w1, [queue[0]], b) && Rejected(w1, v, queue[1..], b)
    ensures Rejected(w, v, queue, b)
  {
    assert queue == [queue[0]] + queue[1..];
    assert v.batches == w.batches[b := w.batches[b].(jobs := v.batches[b].jobs)];
    forall j | j in w.jobs
      ensures v.jobs[j] == if j in queue && w.jobs[j].batch == b then RejectedJob(w.jobs[j]) else w.jobs[j] {
      assert j in queue <==> j in [queue[0]] || j in queue[1..];
    }
    forall j ensures j in v.batches[b].jobs <==>
                       j in w.batches[b].jobs && !(j in queue && OfBatch(w, j, b) && w.jobs[j].state == Queued) {
      assert j in queue <==> j in [queue[0]] || j in queue[1..];
      assert OfBatch(w1, j, b) <==> OfBatch(w, j, b);
    }
  }

  lemma {:induction false} RetainedKeepsOrder(w: World, queue: seq<JobId>, b: BatchId)
    requires forall i, k :: 0 <= i < k < |queue| ==> queue[i] < queue[k]
    ensures
      var kept := Retained(w, queue, b);
      && (forall i, k :: 0 <= i < k < |kept| ==> kept[i] < kept[k])
      && (forall j :: j in kept <==> j in queue && !OfBatch(w, j, b))
      && |kept| <= |queue|
  {
    if |queue| > 0 {
      RetainedKeepsOrder(w, queue[1..], b);
      assert queue == [queue[0]] + queue[1..];
      assert forall j :: j in queue[1..] ==> queue[0] < j;
      var rest := Retained(w, queue[1..], b);
      assert forall k :: 0 <= k < |rest| ==> rest[k] in rest;
    }
  }

  /** The books once the queue was swept and the active jobs of the batch were told, before draining. */
  function Swept(w: World, b: BatchId): World
    requires b in w.batches && w.batches[b].scope in w.schedulers
  {
    var scope := w.batches[b].scope;
    var queue := w.schedulers[scope].queue;
    RejectBatchRejects(w, queue, b);
    var rejected := RejectBatch(w, queue, b);
    SettleActive(rejected.(schedulers := w.schedulers[scope := w.schedulers[scope].(queue := Retained(w, queue, b))]),
        b)
  }

  /** A job of the batch after cancellation. */
  function CanceledJob(job: Job): Job {
    if job.state == Settled || job.publicSettled then RejectedJob(job)
    else job.(state := if job.state == Queued then Settled else job.state,
      publicSettled := true, settles := job.settles + 1)
  }

  ghost predicate IsSwept(w: World, v: World, b: BatchId) {
    && b in w.batches && w.batches[b].scope in w.schedulers && b in v.batches && v.jobs.Keys == w.jobs.Keys
    && v.nextJob == w.nextJob && v.maxConcurrency == w.maxConcurrency && v.maxQueue == w.maxQueue
    && v.batches == w.batches[b := w.batches[b].(jobs := v.batches[b].jobs)]
    && (forall j :: j in w.jobs ==> v.jobs[j] == if w.jobs[j].batch == b then CanceledJob(w.jobs[j]) else w.jobs[j])
    && (forall j :: j in v.batches[b].jobs <==> j in w.batches[b].jobs && j in w.jobs && w.jobs[j].state == Active)
    && var s := w.schedulers[w.batches[b].scope];
       v.schedulers == w.schedulers[w.batches[b].scope := s.(queue := Retained(w, s.queue, b))]
  }

  lemma SweptBooks(w: World, b: BatchId)
    requires Sound(w) && b in w.batches && w.batches[b].scope in w.schedulers
    ensures IsSwept(w, Swept(w, b), b)
  {
    hide Running;
    var scope := w.batches[b].scope;
    var queue := w.schedulers[scope].queue;
    var v, r := Swept(w, b), RejectBatch(w, queue, b);
    RejectBatchRejects(w, queue, b);
    forall j | j in w.jobs ensures v.jobs[j] == if w.jobs[j].batch == b then CanceledJob(w.jobs[j]) else w.jobs[j] {
      assert JobOk(w, j);
      assert w.jobs[j].batch == b && w.jobs[j].state == Queued ==> j in queue;
    }
    forall j ensures j in v.batches[b].jobs <==> j in w.batches[b].jobs && w.jobs[j].state == Active {
      if j in w.batches[b].jobs {
        assert OfBatch(w, j, b) && JobOk(w, j);
        assert w.jobs[j].state == Queued ==> j in queue;
      }
    }
  }

  lemma SweptJobsOk(w: World, v: World, b: BatchId)
    requires JobsOk(w) && IsSwept(w, v, b)
    ensures JobsOk(v)
  {
    hide Retained;
    forall j | j in v.jobs ensures JobOk(v, j) {
      assert JobOk(w, j);
    }
    forall c, j | c in v.batches && j in v.batches[c].jobs ensures OfBatch(v, j, c) {
      assert OfBatch(w, j, c);
    }
  }

  lemma SweptSchedulersOk(w: World, v: World, b: BatchId)
    requires Sound(w) && IsSwept(w, v, b)
    ensures SchedulersOk(v)
  {
    hide Retained, QueueOk, SlotsOk;
    var scope := w.batches[b].scope;
    forall p | p in v.schedulers ensures QueueOk(v, p, v.schedulers[p].queue) && SlotsOk(v, p, v.schedulers[p]) {
      SweptSlots(w, v, b, p, w.schedulers[p], v.schedulers[p]);
      SweptQueue(w, v, b, p, w.schedulers[p].queue);
    }
  }

  lemma SweptSlots(w: World, v: World, b: BatchId, p: Scope, s: Scheduler, s': Scheduler)
    requires IsSwept(w, v, b) && SlotsOk(w, p, s)
    requires s'.active == s.active && (s'.queue == s.queue || s'.queue == Retained(w, s.queue, b))
        && QueueOk(w, p, s.queue)
    ensures SlotsOk(v, p, s')
  {
    hide Retained;
    RetainedKeepsOrder(w, s.queue, b);
    assert Running(v, p) == Running(w, p);
  }

  lemma SweptQueue(w: World, v: World, b: BatchId, p: Scope, queue: seq<JobId>)
    requires IsSwept(w, v, b) && QueueOk(w, p, queue) && JobsOk(w)
    ensures QueueOk(v, p, if p == w.batches[b].scope then Retained(w, queue, b) else queue)
  {
    hide Retained;
    RetainedKeepsOrder(w, queue, b);
    assert forall j :: j in w.jobs && w.jobs[j].scope == p ==> JobOk(w, j);
  }

  lemma SweptStaysQuiet(w: World, v: World, b: BatchId, excused: set<BatchId>)
    requires IsSwept(w, v, b) && StoppedOk(w, excused + {b}) && JobsOk(w)
    ensures StoppedOk(v, excused)
  {
    hide Retained;
    forall j | j in v.jobs && InStoppedBatch(v, v.jobs[j].batch) && v.jobs[j].batch !in excused
      ensures Quiet(v.jobs[j]) {
      assert JobOk(w, j);
      if v.jobs[j].batch != b {
        assert InStoppedBatch(w, w.jobs[j].batch);
      }
    }
  }

  /** Cancelling settles every job of the batch, so that it needs no excuse, and keeps all books; running
      factories keep their slots. */
  lemma CancelKeeps(w: World, b: BatchId, excused: set<BatchId>)
    requires Books(w) && StoppedOk(w, excused + {b}) && b in w.batches
    ensures Inv(Cancel(w, b), excused)
  {
    hide JobsOk, SchedulersOk, StoppedOk, Drain, RejectBatch, Retained;
    var scope := w.batches[b].scope;
    if scope in w.schedulers {
      var v := Swept(w, b);
      RejectBatchRejects(w, w.schedulers[scope].queue, b);
      SweptBooks(w, b);
      assert Cancel(w, b) == Drain(v, scope);
      SweptJobsOk(w, v, b);
      SweptSchedulersOk(w, v, b);
      SweptStaysQuiet(w, v, b, excused);
      SweptStaysBusy(w, v, b);
      DrainKeeps(v, scope, excused);
    } else {
      UnscheduledIsQuiet(w, b, excused);
    }
  }

  lemma SweptStaysBusy(w: World, v: World, b: BatchId)
    requires IsSwept(w, v, b) && Busy(w, None)
    ensures Busy(v, Some(w.batches[b].scope))
  {
    hide Retained;
  }

  /** Without a scheduler the profile has no job that is not over. */
  lemma UnscheduledIsQuiet(w: World, b: BatchId, excused: set<BatchId>)
    requires JobsOk(w) && StoppedOk(w, excused + {b}) && b in w.batches && w.batches[b].scope !in w.schedulers
    ensures StoppedOk(w, excused)
  {
    forall j | j in w.jobs && InStoppedBatch(w, w.jobs[j].batch) && w.jobs[j].batch !in excused
      ensures Quiet(w.jobs[j]) {
      assert JobOk(w, j);
    }
  }

  /** A signal or a flag of one batch changes, its jobs do not. */
  lemma FlagsKeep(w: World, v: World, b: BatchId, excused: set<BatchId>)
    requires Inv(w, excused) && b in w.batches && b in v.batches
    requires v == w.(batches := w.batches[b := v.batches[b]])
    requires v.batches[b].jobs == w.batches[b].jobs && v.batches[b].scope == w.batches[b].scope
    ensures Books(v) && StoppedOk(v, excused + {b})
  {
    hide PromiseOk, Quiet;
    forall j | j in v.jobs ensures JobOk(v, j) {
      assert JobOk(w, j);
    }
    forall c, j | c in v.batches && j in v.batches[c].jobs ensures OfBatch(v, j, c) {
      assert OfBatch(w, j, c);
    }
    assert forall p :: Running(v, p) == Running(w, p);
    forall j | j in v.jobs && InStoppedBatch(v, v.jobs[j].batch) && v.jobs[j].batch !in excused + {b}
      ensures Quiet(v.jobs[j]) {
      assert InStoppedBatch(w, w.jobs[j].batch);
    }
  }

  lemma CreateKeeps(w: World, b: BatchId, scope: Scope, hasSignal: bool, aborted: bool, excused: set<BatchId>)
    requires Inv(w, excused)
    ensures Inv(CreateBatch(w, b, scope, hasSignal, aborted), excused)
  {
    hide Cancel;
    if b !in w.batches {
      var batch := Batch(scope, hasSignal, hasSignal && aborted, false, {});
      NewBatchKeeps(w, b, batch, excused);
      if hasSignal && aborted {
        CancelKeeps(w.(batches := w.batches[b := batch]), b, excused);
      }
    }
  }

  lemma NewBatchKeeps(w: World, b: BatchId, batch: Batch, excused: set<BatchId>)
    requires Inv(w, excused) && b !in w.batches && batch.jobs == {}
    ensures Inv(w.(batches := w.batches[b := batch]), excused)
  {
    hide PromiseOk, Quiet;
    var v := w.(batches := w.batches[b := batch]);
    forall j | j in v.jobs ensures JobOk(v, j) {
      assert JobOk(w, j);
    }
    forall c, j | c in v.batches && j in v.batches[c].jobs ensures OfBatch(v, j, c) {
      assert OfBatch(w, j, c);
    }
    assert forall p :: Running(v, p) == Running(w, p);
    forall j | j in v.jobs && InStoppedBatch(v, v.jobs[j].batch) && v.jobs[j].batch !in excused
      ensures Quiet(v.jobs[j]) {
      assert JobOk(w, j);
      assert InStoppedBatch(w, w.jobs[j].batch);
    }
  }

  lemma CloseKeeps(w: World, b: BatchId, excused: set<BatchId>)
    requires Inv(w, excused)
    ensures Inv(CloseBatch(w, b), excused)
  {
    hide Inv, Cancel;
    if b in w.batches && !w.batches[b].closed {
      var v := w.(batches := w.batches[b := w.batches[b].(closed := true)]);
      FlagsKeep(w, v, b, excused);
      CancelKeeps(v, b, excused);
    }
  }

  lemma AbortKeeps(w: World, b: BatchId, excused: set<BatchId>)
    requires Inv(w, excused)
    ensures Inv(AbortBatch(w, b), excused)
  {
    hide Sound, Busy, Cancel, Quiet;
    if b in w.batches && w.batches[b].hasSignal && !w.batches[b].aborted {
      var v := w.(batches := w.batches[b := w.batches[b].(aborted := true)]);
      FlagsKeep(w, v, b, excused);
      if w.batches[b].closed {
        forall j | j in v.jobs && InStoppedBatch(v, v.jobs[j].batch) && v.jobs[j].batch !in excused
          ensures Quiet(v.jobs[j]) {
          assert InStoppedBatch(w, w.jobs[j].batch);
        }
      } else {
        CancelKeeps(v, b, excused);
      }
    }
  }

  // ---------------------------------------------------------------- scheduling and settling

  /** A new job of a batch, queued or started or rejected at once. */
  lemma NewJobsOk(w: World, v: World, b: BatchId)
    requires JobsOk(w) && b in w.batches && w.nextJob in v.jobs && w.batches[b].scope in v.schedulers
    requires
      var j := w.nextJob;
      && v.jobs == w.jobs[j := v.jobs[j]] && v.jobs[j].batch == b && v.jobs[j].scope == w.batches[b].scope
      && PromiseOk(v.jobs[j]) && v.nextJob == j + 1
      && b in v.batches && v.batches == w.batches[b := w.batches[b].(jobs := v.batches[b].jobs)]
      && v.batches[b].jobs == w.batches[b].jobs + (if v.jobs[j].state == Settled then {} else {j})
      && w.schedulers.Keys <= v.schedulers.Keys
    ensures JobsOk(v) && w.nextJob !in w.jobs
  {
    assert w.nextJob in w.jobs ==> JobOk(w, w.nextJob);
    forall i | i in v.jobs ensures JobOk(v, i) {
      if i != w.nextJob {
        assert JobOk(w, i);
      }
    }
    forall c, i | c in v.batches && i in v.batches[c].jobs ensures OfBatch(v, i, c) {
      if i != w.nextJob {
        assert OfBatch(w, i, c);
      }
    }
    assert w.nextJob in w.batches[b].jobs ==> OfBatch(w, w.nextJob, b);
  }

  lemma NewJobSchedulersOk(w: World, v: World, scope: Scope)
    requires Sound(w) && w.nextJob !in w.jobs && w.nextJob in v.jobs && scope in v.schedulers
    requires v.jobs == w.jobs[w.nextJob := v.jobs[w.nextJob]] && v.jobs[w.nextJob].scope == scope
    requires v.maxConcurrency == w.maxConcurrency && v.maxQueue == w.maxQueue
    requires v.schedulers == w.schedulers[scope := v.schedulers[scope]]
    requires
      var s, s', state := SchedulerOf(w, scope), v.schedulers[scope], v.jobs[w.nextJob].state;
      && s'.active == s.active + (if state == Active then 1 else 0)
      && s'.queue == (if state == Queued then s.queue + [w.nextJob] else s.queue)
      && s'.active <= w.maxConcurrency && |s'.queue| <= w.maxQueue
    ensures SchedulersOk(v)
  {
    hide JobsOk, QueueOk, SlotsOk;
    var s, s' := SchedulerOf(w, scope), v.schedulers[scope];
    SchedulerIsSound(w, scope);
    QueuedJobsAreOlder(w, scope, s.queue);
    NewJobQueue(w, v, scope, s.queue);
    NewJobSlots(w, v, scope, s, s');
    forall p | p in v.schedulers && p != scope
      ensures QueueOk(v, p, v.schedulers[p].queue) && SlotsOk(v, p, v.schedulers[p]) {
      NewJobElsewhere(w, v, scope, p, w.schedulers[p]);
    }
  }

  lemma QueuedJobsAreOlder(w: World, scope: Scope, queue: seq<JobId>)
    requires JobsOk(w) && QueueOk(w, scope, queue)
    ensures forall i :: i in queue ==> i < w.nextJob
  {
    assert forall i :: i in queue ==> JobOk(w, i);
  }

  lemma NewJobSlots(w: World, v: World, scope: Scope, s: Scheduler, s': Scheduler)
    requires SlotsOk(w, scope, s) && w.nextJob !in w.jobs && w.nextJob in v.jobs
    requires v.jobs == w.jobs[w.nextJob := v.jobs[w.nextJob]] && v.jobs[w.nextJob].scope == scope
    requires v.maxConcurrency == w.maxConcurrency && v.maxQueue == w.maxQueue
    requires s'.active == s.active + (if v.jobs[w.nextJob].state == Active then 1 else 0)
    requires s'.active <= w.maxConcurrency && |s'.queue| <= w.maxQueue
    ensures SlotsOk(v, scope, s')
  {
    var j := w.nextJob;
    if v.jobs[j].state == Active {
      assert Running(v, scope) == Running(w, scope) + {j} && j !in Running(w, scope);
    } else {
      assert Running(v, scope) == Running(w, scope);
    }
  }

  lemma NewJobElsewhere(w: World, v: World, scope: Scope, p: Scope, s: Scheduler)
    requires QueueOk(w, p, s.queue) && SlotsOk(w, p, s) && p != scope && w.nextJob !in w.jobs && w.nextJob in v.jobs
    requires v.jobs == w.jobs[w.nextJob := v.jobs[w.nextJob]] && v.jobs[w.nextJob].scope == scope
    requires v.maxConcurrency == w.maxConcurrency && v.maxQueue == w.maxQueue
    ensures QueueOk(v, p, s.queue) && SlotsOk(v, p, s)
  {
    assert Running(v, p) == Running(w, p);
  }

  lemma NewJobQueue(w: World, v: World, scope: Scope, queue: seq<JobId>)
    requires QueueOk(w, scope, queue) && w.nextJob !in w.jobs && w.nextJob in v.jobs
    requires v.jobs == w.jobs[w.nextJob := v.jobs[w.nextJob]] && v.jobs[w.nextJob].scope == scope
    requires forall i :: i in queue ==> i < w.nextJob
    ensures QueueOk(v, scope, if v.jobs[w.nextJob].state == Queued then queue + [w.nextJob] else queue)
  {
    assert forall i :: 0 <= i < |queue| ==> queue[i] in queue;
  }

  /** A profile without a scheduler counts as one with nothing running and nothing queued. */
  lemma SchedulerIsSound(w: World, scope: Scope)
    requires Sound(w)
    ensures QueueOk(w, scope, SchedulerOf(w, scope).queue) && SlotsOk(w, scope, SchedulerOf(w, scope))
  {
    if scope !in w.schedulers {
      assert forall j :: j in w.jobs ==> JobOk(w, j);
      assert Running(w, scope) == {};
    }
  }

  lemma RegisterKeeps(w: World, scope: Scope, excused: set<BatchId>)
    requires Inv(w, excused)
    ensures Inv(w.(schedulers := w.schedulers[scope := SchedulerOf(w, scope)]), excused)
  {
    hide PromiseOk, Quiet, QueueOk, SlotsOk;
    var v := w.(schedulers := w.schedulers[scope := SchedulerOf(w, scope)]);
    SchedulerIsSound(w, scope);
    forall j | j in v.jobs ensures JobOk(v, j) {
      assert JobOk(w, j);
    }
    assert forall b, j :: b in v.batches && j in v.batches[b].jobs ==> OfBatch(w, j, b);
    forall p | p in v.schedulers ensures QueueOk(v, p, v.schedulers[p].queue) && SlotsOk(v, p, v.schedulers[p]) {
      SameJobs(w, v, p, v.schedulers[p]);
    }
    forall j | j in v.jobs && InStoppedBatch(v, v.jobs[j].batch) && v.jobs[j].batch !in excused
      ensures Quiet(v.jobs[j]) {
      assert InStoppedBatch(w, w.jobs[j].batch);
    }
  }

  lemma SameJobs(w: World, v: World, p: Scope, s: Scheduler)
    requires v.jobs == w.jobs && v.maxConcurrency == w.maxConcurrency && v.maxQueue == w.maxQueue
    requires QueueOk(w, p, s.queue) && SlotsOk(w, p, s)
    ensures QueueOk(v, p, s.queue) && SlotsOk(v, p, s)
  {
    assert Running(v, p) == Running(w, p);
  }

  /** What scheduling adds: one job, started if a slot is free, rejected if the batch is stopped. */
  lemma ScheduledBooks(w: World, b: BatchId)
    requires Books(w) && b in w.batches && Schedule(w, b).1.Scheduled?
    ensures
      var (v, r) := Schedule(w, b);
      var j, scope := w.nextJob, w.batches[b].scope;
      var s := SchedulerOf(w, scope);
      && r.job == j && j in v.jobs && scope in v.schedulers && b in v.batches
          && !(w.batches[b].hasSignal && w.batches[b].aborted)
      && v.jobs == w.jobs[j := v.jobs[j]] && v.jobs[j].batch == b && v.jobs[j].scope == scope && PromiseOk(v.jobs[j])
      && v.nextJob == j + 1 && v.maxConcurrency == w.maxConcurrency && v.maxQueue == w.maxQueue
      && v.batches == w.batches[b := w.batches[b].(jobs := v.batches[b].jobs)]
      && v.schedulers == w.schedulers[scope := v.schedulers[scope]]
      && v.jobs[j].state
          == (if s.active >= w.maxConcurrency then Queued else if Stopped(w.batches[b]) then Settled else Active)
      && (v.jobs[j].state == Settled ==> v.jobs[j].publicSettled)
      && v.batches[b].jobs
          == (if v.jobs[j].state == Settled then w.batches[b].jobs + {j} - {j} else w.batches[b].jobs + {j})
      && v.schedulers[scope] == Scheduler(s.active + (if v.jobs[j].state == Active then 1 else 0),
                                          if v.jobs[j].state == Queued then s.queue + [j] else s.queue)
      && (s.active >= w.maxConcurrency ==> |s.queue| < w.maxQueue)
  {
    hide Books;
  }

  /** Scheduling on a closed batch whose profile has no free slot: the job would be queued. */
  predicate QueuesOnClosed(w: World, b: BatchId)
    requires b in w.batches
  {
    var batch, s := w.batches[b], SchedulerOf(w, w.batches[b].scope);
    && batch.closed && !(batch.hasSignal && batch.aborted)
    && s.active >= w.maxConcurrency && |s.queue| < w.maxQueue
  }

  /** The batch that a call of schedule leaves with a job in the queue although it is closed. */
  function Offenders(w: World, op: Op): set<BatchId> {
    if op.DoSchedule? && op.batch in w.batches && QueuesOnClosed(w, op.batch) then {op.batch} else {}
  }

  /** Scheduling keeps all books. It keeps stopped batches quiet except when it queues a job on a closed one. */
  lemma ScheduleKeepsUnlessClosed(w: World, b: BatchId, excused: set<BatchId>)
    requires Inv(w, excused) && b in w.batches
    ensures Books(Schedule(w, b).0)
    ensures Inv(Schedule(w, b).0, excused) <==> b in excused || !QueuesOnClosed(w, b)
  {
    if QueuesOnClosed(w, b) && b !in excused {
      ScheduleKeeps(w, b, excused + {b});
      ScheduledBooks(w, b);
      var v := Schedule(w, b).0;
      assert InStoppedBatch(v, v.jobs[w.nextJob].batch) && !Quiet(v.jobs[w.nextJob]);
    } else {
      ScheduleKeeps(w, b, excused);
    }
  }

  lemma ScheduleKeeps(w: World, b: BatchId, excused: set<BatchId>)
    requires Books(w) && StoppedOk(w, excused) && b in w.batches && (b in excused || !QueuesOnClosed(w, b))
    ensures Inv(Schedule(w, b).0, excused)
  {
    hide Schedule, JobsOk, SchedulersOk, PromiseOk, Running;
    var (v, r) := Schedule(w, b);
    var scope := w.batches[b].scope;
    if r.Scheduled? {
      ScheduledBooks(w, b);
      NewJobUnknown(w);
      UnknownJobIsInNoBatch(w, b);
      NewJobsOk(w, v, b);
      SchedulerIsSound(w, scope);
      NewJobSchedulersOk(w, v, scope);
      NewJobStaysQuiet(w, v, b, excused);
    } else {
      FullBooks(w, b);
      if r.QueueFull? {
        RegisterKeeps(w, scope, excused);
      }
    }
  }

  lemma FullBooks(w: World, b: BatchId)
    requires b in w.batches && !Schedule(w, b).1.Scheduled?
    ensures Schedule(w, b).0 ==
      if Schedule(w, b).1.BatchAborted? then w
      else w.(schedulers := w.schedulers[w.batches[b].scope := SchedulerOf(w, w.batches[b].scope)])
  {
  }

  lemma NewJobUnknown(w: World)
    requires JobsOk(w)
    ensures w.nextJob !in w.jobs
  {
    assert w.nextJob in w.jobs ==> JobOk(w, w.nextJob);
  }

  lemma UnknownJobIsInNoBatch(w: World, b: BatchId)
    requires JobsOk(w) && b in w.batches && w.nextJob !in w.jobs
    ensures w.nextJob !in w.batches[b].jobs
  {
    assert w.nextJob in w.batches[b].jobs ==> OfBatch(w, w.nextJob, b);
  }

  lemma NewJobStaysQuiet(w: World, v: World, b: BatchId, excused: set<BatchId>)
    requires StoppedOk(w, excused) && b in w.batches && b in v.batches && w.nextJob in v.jobs
    requires v.jobs == w.jobs[w.nextJob := v.jobs[w.nextJob]] && v.jobs[w.nextJob].batch == b
    requires v.batches == w.batches[b := w.batches[b].(jobs := v.batches[b].jobs)]
    requires Stopped(w.batches[b]) && b !in excused ==> Quiet(v.jobs[w.nextJob])
    ensures StoppedOk(v, excused)
  {
    forall j | j in v.jobs && InStoppedBatch(v, v.jobs[j].batch) && v.jobs[j].batch !in excused
      ensures Quiet(v.jobs[j]) {
      if j != w.nextJob {
        assert InStoppedBatch(w, w.jobs[j].batch);
      }
    }
  }

  lemma ReturnKeeps(w: World, j: JobId, excused: set<BatchId>)
    requires Inv(w, excused)
    ensures Inv(FactoryReturns(w, j), excused)
  {
    var v := FactoryReturns(w, j);
    if v != w {
      assert JobOk(w, j);
      assert w.batches[w.jobs[j].batch := w.batches[w.jobs[j].batch].(jobs := w.batches[w.jobs[j].batch].jobs)]
          == w.batches;
      JobsFollow(w, v, j);
      ReturnedSchedulersOk(w, v, j);
      ReturnedStaysQuiet(w, v, j, excused);
    }
  }

  lemma ReturnedSchedulersOk(w: World, v: World, j: JobId)
    requires SchedulersOk(w) && JobMoves(w, v, j) && w.jobs[j].state == Active && v.jobs[j].state == Active
    requires v.schedulers == w.schedulers
    ensures SchedulersOk(v)
  {
    forall p | p in v.schedulers ensures QueueOk(v, p, v.schedulers[p].queue) && SlotsOk(v, p, v.schedulers[p]) {
      assert Running(v, p) == Running(w, p);
    }
  }

  lemma ReturnedStaysQuiet(w: World, v: World, j: JobId, excused: set<BatchId>)
    requires StoppedOk(w, excused) && JobMoves(w, v, j) && (Quiet(w.jobs[j]) ==> Quiet(v.jobs[j]))
    ensures StoppedOk(v, excused)
  {
    forall i | i in v.jobs && InStoppedBatch(v, v.jobs[i].batch) && v.jobs[i].batch !in excused
      ensures Quiet(v.jobs[i]) {
      assert InStoppedBatch(w, w.jobs[i].batch);
    }
  }

  /** A slot is given back: the clamp at zero never fires, and the queue moves up. */
  lemma FinalizeKeeps(w: World, j: JobId, excused: set<BatchId>)
    requires Inv(w, excused)
    ensures Inv(Finalize(w, j), excused)
  {
    hide Drain, StoppedOk, QueueOk, Running;
    if j in w.jobs && w.jobs[j].state == Active && w.jobs[j].returned {
      assert JobOk(w, j);
      var scope := w.jobs[j].scope;
      var v := Freed(w, j);
      JobsFollow(w, v, j);
      FreedSlots(w, j);
      FreedQueue(w, v, j, w.schedulers[scope].queue);
      SchedulersFollow(w, v, j);
      ReturnedStaysQuiet(w, v, j, excused);
      assert Finalize(w, j) == Drain(v, scope);
      DrainKeeps(v, scope, excused);
    }
  }

  function Freed(w: World, j: JobId): World
    requires j in w.jobs && w.jobs[j].batch in w.batches && w.jobs[j].scope in w.schedulers
  {
    var scope := w.jobs[j].scope;
    var w1 := LeaveBatch(w.(jobs := w.jobs[j := w.jobs[j].(state := Settled)]), j);
    w1.(schedulers := w.schedulers[scope := w.schedulers[scope].(active := Max(0, w.schedulers[scope].active - 1))])
  }

  lemma FreedSlots(w: World, j: JobId)
    requires Sound(w) && j in w.jobs && w.jobs[j].state == Active && w.jobs[j].batch in w.batches
    requires w.jobs[j].scope in w.schedulers
    ensures w.schedulers[w.jobs[j].scope].active > 0
    ensures SlotsOk(Freed(w, j), w.jobs[j].scope, Freed(w, j).schedulers[w.jobs[j].scope])
  {
    var v, scope := Freed(w, j), w.jobs[j].scope;
    assert SlotsOk(w, scope, w.schedulers[scope]);
    assert j in Running(w, scope);
    assert Running(v, scope) == Running(w, scope) - {j};
  }

  lemma FreedQueue(w: World, v: World, j: JobId, queue: seq<JobId>)
    requires JobMoves(w, v, j) && w.jobs[j].state == Active && v.jobs[j].state == Settled
    requires QueueOk(w, w.jobs[j].scope, queue)
    ensures QueueOk(v, w.jobs[j].scope, queue)
  {
  }

  // ---------------------------------------------------------------- runs

  /** The batches on which a run queued a job after they were closed. */
  function Excused(w: World, ops: seq<Op>): set<BatchId>
    decreases |ops|
  {
    if |ops| == 0 then {}
    else Excused(w, ops[..|ops| - 1]) + Offenders(Run(w, ops[..|ops| - 1]), ops[|ops| - 1])
  }

  lemma ApplyKeeps(w: World, op: Op, excused: set<BatchId>)
    requires Inv(w, excused)
    ensures Inv(Apply(w, op), excused + Offenders(w, op))
  {
    hide Books, Quiet, CreateBatch, CloseBatch, AbortBatch, Schedule, FactoryReturns, Finalize, QueuesOnClosed;
    var all := excused + Offenders(w, op);
    assert StoppedOk(w, all);
    match op
    case DoCreate(b, scope, hasSignal, aborted) => CreateKeeps(w, b, scope, hasSignal, aborted, all);
    case DoClose(b) => CloseKeeps(w, b, all);
    case DoAbort(b) => AbortKeeps(w, b, all);
    case DoSchedule(b) =>
      if b in w.batches {
        ScheduleKeeps(w, b, all);
      }
    case DoReturn(j) => ReturnKeeps(w, j, all);
    case DoFinalize(j) => FinalizeKeeps(w, j, all);
  }

  lemma {:induction false} RunKeeps(maxConcurrency: nat, maxQueue: nat, ops: seq<Op>)
    ensures
      var start := Initial(maxConcurrency, maxQueue);
      Inv(Run(start, ops), Excused(start, ops))
    decreases |ops|
  {
    hide Apply, Offenders;
    if |ops| > 0 {
      var start := Initial(maxConcurrency, maxQueue);
      RunKeeps(maxConcurrency, maxQueue, ops[..|ops| - 1]);
      ApplyKeeps(Run(start, ops[..|ops| - 1]), ops[|ops| - 1], Excused(start, ops[..|ops| - 1]));
    }
  }

  // ---------------------------------------------------------------- theorems

  /** The factories running for a profile never exceed the limit, even when their callers are gone, and
      the slots in use are exactly they. */
  lemma RunningFactoriesAreBounded(maxConcurrency: nat, maxQueue: nat, ops: seq<Op>, w: World, scope: Scope)
    requires w == Run(Initial(maxConcurrency, maxQueue), ops)
    ensures |Running(w, scope)| == SchedulerOf(w, scope).active <= w.maxConcurrency
    ensures |SchedulerOf(w, scope).queue| <= w.maxQueue
    ensures |SchedulerOf(w, scope).queue| > 0 ==> |Running(w, scope)| == w.maxConcurrency
  {
    hide Run, Excused;
    RunKeeps(maxConcurrency, maxQueue, ops);
    SchedulerIsSound(w, scope);
  }

  /** Every promise is settled at most once, and exactly once by the time its job is over. */
  lemma PromisesSettleOnce(maxConcurrency: nat, maxQueue: nat, ops: seq<Op>, w: World, j: JobId)
    requires w == Run(Initial(maxConcurrency, maxQueue), ops) && j in w.jobs
    ensures w.jobs[j].settles <= 1 && (w.jobs[j].state == Settled ==> w.jobs[j].settles == 1)
  {
    hide Run, Excused;
    RunKeeps(maxConcurrency, maxQueue, ops);
    assert JobOk(w, j);
  }

  /** A profile without a scheduler has no job that is not over: schedulers are dropped only when idle. */
  lemma DroppedSchedulersWereIdle(maxConcurrency: nat, maxQueue: nat, ops: seq<Op>, w: World, j: JobId)
    requires w == Run(Initial(maxConcurrency, maxQueue), ops)
    requires j in w.jobs && w.jobs[j].scope !in w.schedulers
    ensures w.jobs[j].state == Settled
  {
    hide Run, Excused;
    RunKeeps(maxConcurrency, maxQueue, ops);
    assert JobOk(w, j);
  }

  /** Once its batch is closed or aborted, no job is queued and no caller waits, in every run that has not
      queued a job on the batch after closing it. */
  lemma StoppedBatchesAreQuiet(maxConcurrency: nat, maxQueue: nat, ops: seq<Op>, w: World, j: JobId)
    requires w == Run(Initial(maxConcurrency, maxQueue), ops)
    requires j in w.jobs && w.jobs[j].batch in w.batches && Stopped(w.batches[w.jobs[j].batch])
    requires w.jobs[j].batch !in Excused(Initial(maxConcurrency, maxQueue), ops)
    ensures w.jobs[j].state != Queued && w.jobs[j].settles == 1
  {
    hide Run, Excused;
    RunKeeps(maxConcurrency, maxQueue, ops);
    assert JobOk(w, j) && InStoppedBatch(w, w.jobs[j].batch);
  }

  // ---------------------------------------------------------------- the gateway's own batches

  /** The calls of a run that create, fill or close batch `b`. */
  function CallsOn(ops: seq<Op>, b: BatchId): seq<Op>
    decreases |ops|
  {
    if |ops| == 0 then []
    else
      var last := ops[|ops| - 1];
      CallsOn(ops[..|ops| - 1], b)
      + if (last.DoCreate? || last.DoSchedule? || last.DoClose?) && last.batch == b then [last] else []
  }

  /** How the gateway asks `n` providers: it creates a batch, schedules all its jobs, and closes the batch
      when it has waited for them, or given up. */
  function Asks(b: BatchId, scope: Scope, hasSignal: bool, aborted: bool, n: nat): seq<Op> {
    [DoCreate(b, scope, hasSignal, aborted)] + seq(n, i => DoSchedule(b)) + [DoClose(b)]
  }

  lemma {:induction false} ClosedByACall(start: World, ops: seq<Op>, b: BatchId)
    requires b !in start.batches
    requires b in Run(start, ops).batches && Run(start, ops).batches[b].closed
    ensures DoClose(b) in CallsOn(ops, b)
    decreases |ops|
  {
    hide Apply;
    if |ops| > 0 {
      var w, last := Run(start, ops[..|ops| - 1]), ops[|ops| - 1];
      WhoClosesABatch(w, last, b);
      if b in w.batches && w.batches[b].closed {
        ClosedByACall(start, ops[..|ops| - 1], b);
      }
    }
  }

  ghost predicate SameBatches(w: World, v: World) {
    v.batches.Keys == w.batches.Keys && forall b :: b in w.batches ==> v.batches[b].closed == w.batches[b].closed
  }

  lemma {:induction false} FillSlotsClosesNothing(w: World, scope: Scope)
    requires scope in w.schedulers
    ensures SameBatches(w, FillSlots(w, scope))
    decreases |w.schedulers[scope].queue|
  {
    if w.schedulers[scope].active < w.maxConcurrency && |w.schedulers[scope].queue| > 0 {
      StartNextShrinks(w, scope);
      FillSlotsClosesNothing(StartNext(w, scope), scope);
    }
  }

  lemma CancelClosesNothing(w: World, b: BatchId)
    requires b in w.batches
    ensures SameBatches(w, Cancel(w, b))
  {
    hide FillSlots;
    var scope := w.batches[b].scope;
    if scope in w.schedulers {
      var queue := w.schedulers[scope].queue;
      RejectBatchRejects(w, queue, b);
      var rejected := RejectBatch(w, queue, b);
      var kept := rejected.(schedulers := w.schedulers[scope := w.schedulers[scope].(queue := Retained(w, queue, b))]);
      FillSlotsClosesNothing(SettleActive(kept, b), scope);
    }
  }

  lemma WhoClosesABatch(w: World, op: Op, b: BatchId)
    requires b in Apply(w, op).batches && Apply(w, op).batches[b].closed
    ensures op == DoClose(b) || (b in w.batches && w.batches[b].closed)
  {
    hide Cancel, FillSlots;
    match op
    case DoCreate(c, scope, hasSignal, aborted) =>
      if c !in w.batches && hasSignal && aborted {
        CancelClosesNothing(w.(batches := w.batches[c := Batch(scope, true, true, false, {})]), c);
      }
    case DoClose(c) =>
      if c in w.batches && !w.batches[c].closed {
        CancelClosesNothing(w.(batches := w.batches[c := w.batches[c].(closed := true)]), c);
      }
    case DoAbort(c) =>
      if c in w.batches && !w.batches[c].closed && w.batches[c].hasSignal && !w.batches[c].aborted {
        CancelClosesNothing(w.(batches := w.batches[c := w.batches[c].(aborted := true)]), c);
      }
    case DoSchedule(_) =>
    case DoReturn(_) =>
    case DoFinalize(j) =>
      if j in w.jobs && w.jobs[j].state == Active && w.jobs[j].returned && w.jobs[j].batch in w.batches
         && w.jobs[j].scope in w.schedulers {
        FillSlotsClosesNothing(Freed(w, j), w.jobs[j].scope);
      }
  }

  /** Up to its end, the gateway's own sequence of calls on a batch excuses nothing: whatever else the run
      does in between, the batch is quiet once it is closed or aborted. */
  lemma {:induction false} GatewayBatchesNeedNoExcuse(
    start: World, ops: seq<Op>, b: BatchId, scope: Scope, hasSignal: bool, aborted: bool, n: nat)
    requires b !in start.batches && CallsOn(ops, b) <= Asks(b, scope, hasSignal, aborted, n)
    ensures b !in Excused(start, ops)
    decreases |ops|
  {
    hide Apply, Run;
    if |ops| > 0 {
      var front, last := ops[..|ops| - 1], ops[|ops| - 1];
      var script := Asks(b, scope, hasSignal, aborted, n);
      assert CallsOn(front, b) <= CallsOn(ops, b) <= script;
      GatewayBatchesNeedNoExcuse(start, front, b, scope, hasSignal, aborted, n);
      var w := Run(start, front);
      if last == DoSchedule(b) {
        forall i | 0 <= i < |CallsOn(front, b)| ensures CallsOn(front, b)[i] != DoClose(b) {
          assert CallsOn(ops, b)[i] == script[i] && i < |script| - 1;
        }
        if b in w.batches && w.batches[b].closed {
          ClosedByACall(start, front, b);
        }
      }
    }
  }

  /** So a batch the gateway asks its providers with has no job that is queued, or whose caller waits, once it
      is closed or its signal has fired. */
  lemma GatewayBatchesAreQuiet(
    maxConcurrency: nat, maxQueue: nat, ops: seq<Op>, w: World, j: JobId,
    scope: Scope, hasSignal: bool, aborted: bool, n: nat)
    requires w == Run(Initial(maxConcurrency, maxQueue), ops)
    requires j in w.jobs && w.jobs[j].batch in w.batches && Stopped(w.batches[w.jobs[j].batch])
    requires CallsOn(ops, w.jobs[j].batch) <= Asks(w.jobs[j].batch, scope, hasSignal, aborted, n)
    ensures w.jobs[j].state != Queued && w.jobs[j].settles == 1
  {
    hide Run, Excused, CallsOn, Asks;
    GatewayBatchesNeedNoExcuse(Initial(maxConcurrency, maxQueue), ops, w.jobs[j].batch, scope, hasSignal, aborted, n);
    StoppedBatchesAreQuiet(maxConcurrency, maxQueue, ops, w, j);
  }

  lemma RunNone(w: World)
    ensures Run(w, []) == w
  {
  }

  lemma RunOne(w: World, ops: seq<Op>, op: Op)
    ensures Run(w, ops + [op]) == Apply(Run(w, ops), op)
  {
    assert (ops + [op])[..|ops|] == ops;
  }

  /** Other callers could: with one slot, taken by batch 0, a job scheduled on batch 1 after its close waits in
      the queue. */
  lemma AClosedBatchMayQueue(p: Scope)
    ensures
      var w := Run(Initial(1, 1), [DoCreate(0, p, false, false), DoSchedule(0), DoCreate(1, p, false, false),
                                   DoClose(1), DoSchedule(1)]);
      1 in w.jobs && w.jobs[1].batch == 1 && 1 in w.batches && w.batches[1].closed && w.jobs[1].state == Queued
  {
    hide Run;
    var w0 := Initial(1, 1);
    var c0, c1 := DoCreate(0, p, false, false), DoCreate(1, p, false, false);
    RunNone(w0);
    RunOne(w0, [], c0);
    RunOne(w0, [c0], DoSchedule(0));
    RunOne(w0, [c0, DoSchedule(0)], c1);
    RunOne(w0, [c0, DoSchedule(0), c1], DoClose(1));
    RunOne(w0, [c0, DoSchedule(0), c1, DoClose(1)], DoSchedule(1));
    assert [] + [c0] == [c0] && [c0] + [DoSchedule(0)] == [c0, DoSchedule(0)];
    assert [c0, DoSchedule(0)] + [c1] == [c0, DoSchedule(0), c1];
    assert [c0, DoSchedule(0), c1] + [DoClose(1)] == [c0, DoSchedule(0), c1, DoClose(1)];
    assert [c0, DoSchedule(0), c1, DoClose(1)] + [DoSchedule(1)]
           == [c0, DoSchedule(0), c1, DoClose(1), DoSchedule(1)];
    FirstSteps(w0, p);
  }

  lemma FirstSteps(w0: World, p: Scope)
    requires w0 == Initial(1, 1)
    ensures
      var w2 := Apply(Apply(w0, DoCreate(0, p, false, false)), DoSchedule(0));
      var w := Apply(Apply(Apply(w2, DoCreate(1, p, false, false)), DoClose(1)), DoSchedule(1));
      1 in w.jobs && w.jobs[1].batch == 1 && 1 in w.batches && w.batches[1].closed && w.jobs[1].state == Queued
  {
    hide Cancel;
    var w2 := Apply(Apply(w0, DoCreate(0, p, false, false)), DoSchedule(0));
    assert w2.schedulers == map[p := Scheduler(1, [])];
    var w3 := Apply(w2, DoCreate(1, p, false, false));
    CancelNothing(w3.(batches := w3.batches[1 := w3.batches[1].(closed := true)]), 1, p);
  }

  /** Cancelling a batch without jobs, while nothing is queued and the slots are taken, changes nothing. */
  lemma CancelNothing(w: World, b: BatchId, p: Scope)
    requires b in w.batches && w.batches[b].scope == p && w.batches[b].jobs == {} && p in w.schedulers
    requires w.schedulers[p].active >= w.maxConcurrency && w.schedulers[p].active > 0 && w.schedulers[p].queue == []
    ensures Cancel(w, b) == w
  {
    assert Told(w.jobs, {}) == w.jobs;
    assert w.schedulers[p := w.schedulers[p].(queue := [])] == w.schedulers;
  }
}
