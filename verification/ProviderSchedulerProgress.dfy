// What each call of the provider scheduler does to the jobs, exactly: which start, which are rejected, and that
// jobs of one profile start in the order they came.
module ProviderSchedulerProgress {
  import opened Outcomes
  import opened ProviderScheduler
  import opened ProviderSchedulerSafety

  // ---------------------------------------------------------------- scheduling

  /** A batch whose signal has fired is refused. Otherwise a job starts at once if the profile has a free slot,
      waits if not and there is room, and is refused for a full queue exactly if there is none. A job of a closed
      batch that would start is rejected instead. */
  lemma ScheduleIsExact(w: World, b: BatchId)
    requires Books(w) && b in w.batches
    ensures
      var (v, result) := Schedule(w, b);
      var s, batch := SchedulerOf(w, w.batches[b].scope), w.batches[b];
      var busy := |Running(w, batch.scope)| == w.maxConcurrency;
      && (result == BatchAborted <==> batch.hasSignal && batch.aborted)
      && (result == QueueFull <==> !(batch.hasSignal && batch.aborted) && busy && |s.queue| == w.maxQueue)
      && (result.Scheduled? ==>
            && result.job !in w.jobs && result.job in v.jobs
            && v.jobs == w.jobs[result.job := v.jobs[result.job]]
            && v.jobs[result.job].batch == b && v.jobs[result.job].scope == batch.scope
            && v.jobs[result.job].state == (if busy then Queued else if batch.closed then Settled else Active)
            && (!busy ==> |s.queue| == 0))
      && (!result.Scheduled? ==> v.jobs == w.jobs && v.batches == w.batches)
  {
    hide Schedule, JobsOk, Running;
    SchedulerIsSound(w, w.batches[b].scope);
    if Schedule(w, b).1.Scheduled? {
      ScheduledBooks(w, b);
      NewJobUnknown(w);
    } else {
      FullBooks(w, b);
    }
    ScheduleAnswers(w, b);
    if SchedulerOf(w, w.batches[b].scope).queue != [] {
      assert w.batches[b].scope in w.schedulers;
    }
  }

  lemma ScheduleAnswers(w: World, b: BatchId)
    requires b in w.batches
    ensures
      var batch, s := w.batches[b], SchedulerOf(w, w.batches[b].scope);
      Schedule(w, b).1 == if batch.hasSignal && batch.aborted then BatchAborted
                          else if s.active >= w.maxConcurrency && |s.queue| >= w.maxQueue then QueueFull
                          else Scheduled(w.nextJob)
  {
  }

  // ---------------------------------------------------------------- draining

  /** Draining starts a waiting job, or rejects it because its batch is stopped, or leaves the job alone. */
  ghost predicate Advances(w: World, v: World, j: JobId)
    requires j in w.jobs
  {
    && j in v.jobs
    && (|| v.jobs[j] == w.jobs[j]
        || (&& w.jobs[j].state == Queued && v.jobs[j] == w.jobs[j].(state := Active)
            && !InStoppedBatch(w, w.jobs[j].batch))
        || (w.jobs[j].state == Queued && v.jobs[j] == RejectedJob(w.jobs[j]) && InStoppedBatch(w, w.jobs[j].batch)))
  }

  ghost predicate SameStops(w: World, v: World) {
    forall b: BatchId :: InStoppedBatch(v, b) <==> InStoppedBatch(w, b)
  }

  lemma StartNextAdvances(w: World, scope: Scope, j: JobId)
    requires Sound(w) && scope in w.schedulers && |w.schedulers[scope].queue| > 0 && j in w.jobs
    ensures Advances(w, StartNext(w, scope), j) && SameStops(w, StartNext(w, scope))
  {
    hide SlotsOk, Running;
    HeadIsQueued(w, scope, w.schedulers[scope].queue);
    assert JobOk(w, w.schedulers[scope].queue[0]);
  }

  /** The slots are filled from the head of the queue: what is left is what stood behind. */
  lemma {:induction false} FillSlotsAdvances(w: World, scope: Scope, j: JobId) returns (taken: nat)
    requires Sound(w) && scope in w.schedulers && j in w.jobs
    ensures Advances(w, FillSlots(w, scope), j) && SameStops(w, FillSlots(w, scope))
    ensures taken <= |w.schedulers[scope].queue|
    ensures FillSlots(w, scope).schedulers[scope].queue == w.schedulers[scope].queue[taken..]
    decreases |w.schedulers[scope].queue|
  {
    hide Sound, StartNext, InStoppedBatch;
    var s := w.schedulers[scope];
    taken := 0;
    if s.active < w.maxConcurrency && |s.queue| > 0 {
      var next := StartNext(w, scope);
      StartNextShrinks(w, scope);
      StartNextSound(w, scope);
      StartNextAdvances(w, scope, j);
      var more := FillSlotsAdvances(next, scope, j);
      taken := more + 1;
      assert s.queue[1..][more..] == s.queue[taken..];
    }
  }

  lemma DrainAdvances(w: World, scope: Scope, j: JobId)
    requires Sound(w) && scope in w.schedulers && j in w.jobs
    ensures Advances(w, Drain(w, scope), j) && SameStops(w, Drain(w, scope))
  {
    hide FillSlots, Sound;
    var taken := FillSlotsAdvances(w, scope, j);
  }

  /** Jobs of a profile leave its queue in the order they came. */
  lemma JobsLeaveInOrder(w: World, scope: Scope, first: JobId, second: JobId)
    requires Sound(w) && scope in w.schedulers && first < second
    requires first in w.schedulers[scope].queue && second in w.schedulers[scope].queue
    ensures
      var queue := FillSlots(w, scope).schedulers[scope].queue;
      first in queue ==> second in queue
  {
    hide FillSlots;
    var queue := w.schedulers[scope].queue;
    assert QueueOk(w, scope, queue);
    var taken := FillSlotsAdvances(w, scope, first);
    var rest := queue[taken..];
    if first in rest {
      var i :| 0 <= i < |rest| && rest[i] == first;
      var k :| 0 <= k < |queue| && queue[k] == second;
      assert k > taken + i;
      assert rest[k - taken] == second;
    }
  }

  // ---------------------------------------------------------------- cancelling, closing, finishing

  /** Cancelling settles exactly the batch's own jobs: queued ones are over, active ones run on but their callers
      are told. A job of another batch is untouched, or gets its turn. */
  lemma CancelIsExact(w: World, b: BatchId, j: JobId)
    requires Books(w) && b in w.batches && j in w.jobs
    ensures
      var v := Cancel(w, b);
      && j in v.jobs && SameStops(w, v)
      && if w.jobs[j].batch == b then v.jobs[j] == CanceledJob(w.jobs[j]) else Advances(w, v, j)
  {
    hide JobsOk, SchedulersOk, Drain, RejectBatch, Retained;
    var scope := w.batches[b].scope;
    if scope in w.schedulers {
      var v := Swept(w, b);
      RejectBatchRejects(w, w.schedulers[scope].queue, b);
      SweptBooks(w, b);
      assert Cancel(w, b) == Drain(v, scope);
      SweptJobsOk(w, v, b);
      SweptSchedulersOk(w, v, b);
      DrainAdvances(v, scope, j);
    } else if w.jobs[j].batch == b {
      JobsNeedSchedulers(w, j);
    }
  }

  lemma JobsNeedSchedulers(w: World, j: JobId)
    requires JobsOk(w) && j in w.jobs && w.batches[w.jobs[j].batch].scope !in w.schedulers
    requires w.jobs[j].batch in w.batches
    ensures CanceledJob(w.jobs[j]) == w.jobs[j]
  {
    assert JobOk(w, j);
  }

  /** Closing a batch closes it, and settles its jobs. */
  lemma CloseIsExact(w: World, b: BatchId, j: JobId)
    requires Books(w) && b in w.batches && !w.batches[b].closed && j in w.jobs
    ensures
      var v := CloseBatch(w, b);
      && InStoppedBatch(v, b) && b in v.batches && v.batches[b].closed && j in v.jobs
      && (w.jobs[j].batch == b ==> v.jobs[j] == CanceledJob(w.jobs[j]))
      && (w.jobs[j].batch != b && w.jobs[j].state != Queued ==> v.jobs[j] == w.jobs[j])
      && (w.jobs[j].batch != b && !InStoppedBatch(w, w.jobs[j].batch) && w.jobs[j].state == Queued ==>
            v.jobs[j].state != Settled)
  {
    hide Books, Cancel;
    var closing := w.(batches := w.batches[b := w.batches[b].(closed := true)]);
    FlagsKeep(w, closing, b, w.batches.Keys);
    CancelIsExact(closing, b, j);
    CancelClosesNothing(closing, b);
  }

  /** A signal that fires marks the batch, and settles its jobs unless it is closed already. */
  lemma AbortIsExact(w: World, b: BatchId, j: JobId)
    requires Books(w) && b in w.batches && w.batches[b].hasSignal && !w.batches[b].aborted && j in w.jobs
    ensures
      var v := AbortBatch(w, b);
      && InStoppedBatch(v, b) && j in v.jobs
      && (w.jobs[j].batch == b ==> v.jobs[j] == if w.batches[b].closed then w.jobs[j] else CanceledJob(w.jobs[j]))
      && (w.jobs[j].batch != b && w.jobs[j].state != Queued ==> v.jobs[j] == w.jobs[j])
      && (w.jobs[j].batch != b && !InStoppedBatch(w, w.jobs[j].batch) && w.jobs[j].state == Queued ==>
            v.jobs[j].state != Settled)
  {
    hide Books, Cancel;
    var aborting := w.(batches := w.batches[b := w.batches[b].(aborted := true)]);
    FlagsKeep(w, aborting, b, w.batches.Keys);
    CancelIsExact(aborting, b, j);
  }

  /** A factory that returns settles its caller, unless that was told already, and keeps its slot until its
      finalizer runs; the finalizer ends the job and gives the slot to the next. */
  lemma FinalizeIsExact(w: World, done: JobId, j: JobId)
    requires Books(w) && done in w.jobs && w.jobs[done].state == Active && j in w.jobs
    ensures
      var v := FactoryReturns(w, done);
      && v.jobs == w.jobs[done := v.jobs[done]] && v.jobs[done].state == Active && v.jobs[done].settles == 1
      && v.schedulers == w.schedulers
    ensures
      var v := Finalize(w, done);
      if !w.jobs[done].returned then v == w
      else
        && done in v.jobs && v.jobs[done] == w.jobs[done].(state := Settled)
        && (j != done ==> Advances(w, v, j))
  {
    hide Drain, QueueOk, Running;
    assert JobOk(w, done);
    if w.jobs[done].returned {
      FinalizeDrains(w, done);
      var v := Freed(w, done);
      DrainAdvances(v, w.jobs[done].scope, done);
      DrainAdvances(v, w.jobs[done].scope, j);
    }
  }

  lemma FinalizeDrains(w: World, j: JobId)
    requires Books(w) && j in w.jobs && w.jobs[j].state == Active && w.jobs[j].returned
    ensures w.jobs[j].batch in w.batches && w.jobs[j].scope in w.schedulers
    ensures Finalize(w, j) == Drain(Freed(w, j), w.jobs[j].scope) && Sound(Freed(w, j))
  {
    hide Drain, StoppedOk, QueueOk, Running;
    assert JobOk(w, j);
    var v, scope := Freed(w, j), w.jobs[j].scope;
    JobsFollow(w, v, j);
    FreedSlots(w, j);
    FreedQueue(w, v, j, w.schedulers[scope].queue);
    SchedulersFollow(w, v, j);
  }
}
