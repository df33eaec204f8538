// The scheduler as the gateway keeps it: maps of jobs, batches and schedulers updated in place. Every
// method is tied to its transition on values and keeps the invariant proved there.
module GatewaySchedulerClass {
  import opened Outcomes
  import opened ProviderScheduler
  import opened ProviderSchedulerSafety

  class GatewayScheduler {
    const maxConcurrency: nat
    const maxQueue: nat
    var jobs: map<JobId, Job>
    var batches: map<BatchId, Batch>
    var schedulers: map<Scope, Scheduler>
    var nextJob: JobId

    ghost function State(): World
      reads this
    {
      World(maxConcurrency, maxQueue, jobs, batches, schedulers, nextJob)
    }

    constructor (maxConcurrency: nat, maxQueue: nat)
      ensures State() == Initial(maxConcurrency, maxQueue)
    {
      this.maxConcurrency, this.maxQueue := maxConcurrency, maxQueue;
      jobs, batches, schedulers, nextJob := map[], map[], map[], 0;
    }

    method SettleProviderJob(j: JobId)
      requires j in jobs
      modifies this`jobs
      ensures State() == SettleJob(old(State()), j)
    {
      if jobs[j].publicSettled {
        return;
      }
      jobs := jobs[j := jobs[j].(publicSettled := true, settles := jobs[j].settles + 1)];
    }

    method RejectQueuedProviderJob(j: JobId)
      requires j in jobs && jobs[j].batch in batches
      modifies this`jobs, this`batches
      ensures State() == RejectQueued(old(State()), j)
    {
      if jobs[j].state != Queued {
        return;
      }
      jobs := jobs[j := jobs[j].(state := Settled)];
      var b := jobs[j].batch;
      batches := batches[b := batches[b].(jobs := batches[b].jobs - {j})];
      SettleProviderJob(j);
    }

    method StartProviderJob(j: JobId)
      requires j in jobs && jobs[j].batch in batches && jobs[j].scope in schedulers
      modifies this`jobs, this`batches, this`schedulers
      ensures State() == StartJob(old(State()), j)
    {
      if jobs[j].state != Queued {
        return;
      }
      if Stopped(batches[jobs[j].batch]) {
        RejectQueuedProviderJob(j);
        return;
      }
      jobs := jobs[j := jobs[j].(state := Active)];
      var scope := jobs[j].scope;
      schedulers := schedulers[scope := schedulers[scope].(active := schedulers[scope].active + 1)];
    }

    method DrainProviderScheduler(scope: Scope)
      requires scope in schedulers && Sound(State())
      modifies this`jobs, this`batches, this`schedulers
      ensures State() == Drain(old(State()), scope)
    {
      while schedulers[scope].active < maxConcurrency && |schedulers[scope].queue| > 0
        invariant scope in schedulers && Sound(State())
        invariant FillSlots(State(), scope) == FillSlots(old(State()), scope)
        decreases if scope in schedulers then |schedulers[scope].queue| else 0
      {
        hide Sound, FillSlots;
        ghost var w := State();
        StartNextSound(w, scope);
        StartNextShrinks(w, scope);
        FillOnce(w, scope);
        QueueHeadIsStartable(w, scope);
        var s := schedulers[scope];
        schedulers := schedulers[scope := s.(queue := s.queue[1..])];
        StartProviderJob(s.queue[0]);
        assert State() == StartNext(w, scope);
      }
      if schedulers[scope].active == 0 && |schedulers[scope].queue| == 0 {
        schedulers := schedulers - {scope};
      }
    }

    method CancelProviderJobs(b: BatchId)
      requires b in batches && Books(State())
      modifies this`jobs, this`batches, this`schedulers
      ensures State() == Cancel(old(State()), b)
      ensures Books(State())
    {
      hide Sound, Busy, FillSlots, Drain;
      ghost var before := State();
      CancelKeeps(before, b, before.batches.Keys);
      var scope := batches[b].scope;
      if scope !in schedulers {
        return;
      }
      var queue := schedulers[scope].queue;
      RejectBatchRejects(before, queue, b);
      QueueIsKnown(before, scope);
      var retained := SweepQueue(queue, b);
      schedulers := schedulers[scope := schedulers[scope].(queue := retained)];
      SweptJobsAreKnown(before, b);
      SettleActiveJobs(b);
      SweptIsSound(before, b);
      DrainProviderScheduler(scope);
    }

    /** The first loop of _cancelProviderJobs: rejects the batch's queued jobs, collects the others. */
    method SweepQueue(queue: seq<JobId>, b: BatchId) returns (retained: seq<JobId>)
      requires b in batches && forall j :: j in queue ==> j in jobs && jobs[j].batch in batches
      modifies this`jobs, this`batches
      ensures State() == RejectBatch(old(State()), queue, b)
      ensures retained == Retained(old(State()), queue, b)
    {
      hide RejectQueued, RejectBatch, Retained;
      retained := [];
      var i := 0;
      assert queue[0..] == queue;
      while i < |queue|
        invariant i <= |queue| && b in batches
        invariant jobs.Keys == old(jobs).Keys && batches.Keys == old(batches).Keys
        invariant forall j :: j in jobs ==> jobs[j].batch == old(jobs)[j].batch
        invariant RejectBatch(State(), queue[i..], b) == RejectBatch(old(State()), queue, b)
        invariant Retained(old(State()), queue, b) == retained + Retained(old(State()), queue[i..], b)
      {
        var j := queue[i];
        SweepOnce(State(), queue[i..], b);
        SweepOnce(old(State()), queue[i..], b);
        assert queue[i..][0] == j && queue[i..][1..] == queue[i + 1..];
        RejectQueuedFrame(State(), j);
        if jobs[j].batch == b {
          RejectQueuedProviderJob(j);
        } else {
          retained := retained + [j];
        }
        i := i + 1;
      }
      SweepNothing(State(), b);
      SweepNothing(old(State()), b);
      assert queue[i..] == [];
    }

    /** The second loop: tells the callers of the batch's active jobs. */
    method SettleActiveJobs(b: BatchId)
      requires b in batches && forall j :: j in batches[b].jobs ==> j in jobs
      modifies this`jobs
      ensures State() == SettleActive(old(State()), b)
    {
      hide Told, ToldJob;
      var todo := batches[b].jobs;
      ghost var told: set<JobId> := {};
      ToldNobody(jobs);
      while todo != {}
        invariant told + todo == batches[b].jobs && told !! todo
        invariant jobs.Keys == old(jobs).Keys && jobs == Told(old(jobs), told)
        decreases |todo|
      {
        var j :| j in todo;
        ToldOne(old(jobs), told, j);
        if jobs[j].state == Active {
          SettleProviderJob(j);
        }
        todo, told := todo - {j}, told + {j};
      }
      assert told == batches[b].jobs;
    }

    method CreateProviderBatch(b: BatchId, scope: Scope, hasSignal: bool, aborted: bool)
      requires Books(State()) && b !in batches
      modifies this`jobs, this`batches, this`schedulers
      ensures State() == CreateBatch(old(State()), b, scope, hasSignal, aborted)
      ensures Books(State())
    {
      hide Books, Cancel;
      CreateKeeps(State(), b, scope, hasSignal, aborted, batches.Keys);
      var batch := Batch(scope, hasSignal, hasSignal && aborted, false, {});
      NewBatchKeeps(State(), b, batch, batches.Keys);
      batches := batches[b := batch];
      if hasSignal && aborted {
        CancelProviderJobs(b);
      }
    }

    method CloseProviderBatch(b: BatchId)
      requires Books(State()) && b in batches
      modifies this`jobs, this`batches, this`schedulers
      ensures State() == CloseBatch(old(State()), b)
      ensures Books(State())
    {
      hide Books, Cancel;
      if batches[b].closed {
        return;
      }
      FlagsKeep(State(), State().(batches := batches[b := batches[b].(closed := true)]), b, batches.Keys);
      batches := batches[b := batches[b].(closed := true)];
      CancelProviderJobs(b);
    }

    /** The caller's signal fires. */
    method AbortSignal(b: BatchId)
      requires Books(State()) && b in batches && batches[b].hasSignal && !batches[b].aborted
      modifies this`jobs, this`batches, this`schedulers
      ensures State() == AbortBatch(old(State()), b)
      ensures Books(State())
    {
      hide Books, Cancel;
      AbortKeeps(State(), b, batches.Keys);
      FlagsKeep(State(), State().(batches := batches[b := batches[b].(aborted := true)]), b, batches.Keys);
      var listening := !batches[b].closed;
      batches := batches[b := batches[b].(aborted := true)];
      if listening {
        CancelProviderJobs(b);
      }
    }

    method ScheduleProvider(b: BatchId) returns (result: ScheduleResult)
      requires Books(State()) && b in batches
      modifies this
      ensures (State(), result) == Schedule(old(State()), b)
      ensures Books(State())
    {
      hide Books;
      ScheduleKeeps(State(), b, batches.Keys);
      var batch := batches[b];
      if batch.hasSignal && batch.aborted {
        return BatchAborted;
      }
      if batch.scope !in schedulers {
        schedulers := schedulers[batch.scope := Scheduler(0, [])];
      }
      var s := schedulers[batch.scope];
      assert schedulers == old(schedulers)[batch.scope := s];
      if s.active >= maxConcurrency && |s.queue| >= maxQueue {
        return QueueFull;
      }
      var j := nextJob;
      nextJob := nextJob + 1;
      jobs := jobs[j := Job(b, batch.scope, Queued, false, 0, false)];
      batches := batches[b := batch.(jobs := batch.jobs + {j})];
      if s.active < maxConcurrency {
        StartProviderJob(j);
      } else {
        schedulers := schedulers[batch.scope := s.(queue := s.queue + [j])];
      }
      return Scheduled(j);
    }

    method FactoryReturned(j: JobId)
      requires Books(State()) && j in jobs && jobs[j].state == Active && !jobs[j].returned
      modifies this`jobs
      ensures State() == FactoryReturns(old(State()), j)
      ensures Books(State())
    {
      hide Books;
      ReturnKeeps(State(), j, batches.Keys);
      jobs := jobs[j := jobs[j].(returned := true)];
      SettleProviderJob(j);
    }

    method FinalizeJob(j: JobId)
      requires Books(State()) && j in jobs && jobs[j].state == Active && jobs[j].returned
      modifies this`jobs, this`batches, this`schedulers
      ensures State() == Finalize(old(State()), j)
      ensures Books(State())
    {
      hide Books, Drain;
      ghost var before := State();
      FinalizeKeeps(before, j, batches.Keys);
      ActiveJobIsKnown(before, j);
      FreedIsSound(before, j);
      jobs := jobs[j := jobs[j].(state := Settled)];
      var b, scope := jobs[j].batch, jobs[j].scope;
      batches := batches[b := batches[b].(jobs := batches[b].jobs - {j})];
      var active := schedulers[scope].active;
      schedulers := schedulers[scope := schedulers[scope].(active := if active > 0 then active - 1 else 0)];
      assert State() == Freed(before, j);
      DrainProviderScheduler(scope);
    }
  }

  // ---------------------------------------------------------------- small facts the methods use

  lemma FillOnce(w: World, scope: Scope)
    requires scope in w.schedulers && w.schedulers[scope].active < w.maxConcurrency && |w.schedulers[scope].queue| > 0
    ensures scope in StartNext(w, scope).schedulers && FillSlots(w, scope) == FillSlots(StartNext(w, scope), scope)
  {
    StartNextShrinks(w, scope);
  }

  lemma QueueHeadIsStartable(w: World, scope: Scope)
    requires Sound(w) && scope in w.schedulers && |w.schedulers[scope].queue| > 0
    ensures Startable(w, w.schedulers[scope].queue[0], scope)
  {
    HeadIsQueued(w, scope, w.schedulers[scope].queue);
    assert JobOk(w, w.schedulers[scope].queue[0]);
  }

  lemma QueueIsKnown(w: World, scope: Scope)
    requires Sound(w) && scope in w.schedulers
    ensures forall j :: j in w.schedulers[scope].queue ==> j in w.jobs && w.jobs[j].batch in w.batches
  {
    assert QueueOk(w, scope, w.schedulers[scope].queue);
    assert forall j :: j in w.schedulers[scope].queue ==> JobOk(w, j);
  }

  lemma ToldNobody(jobs: map<JobId, Job>)
    ensures Told(jobs, {}) == jobs
  {
  }

  /** Telling one more caller, in terms of _settleProviderJob. */
  lemma ToldOne(jobs: map<JobId, Job>, told: set<JobId>, j: JobId)
    requires j in jobs && j !in told
    ensures
      var now := Told(jobs, told);
      && now.Keys == jobs.Keys
      && Told(jobs, told + {j})
         == if now[j].state == Active && !now[j].publicSettled
            then now[j := now[j].(publicSettled := true, settles := now[j].settles + 1)] else now
  {
  }

  lemma SweepOnce(w: World, queue: seq<JobId>, b: BatchId)
    requires |queue| > 0 && b in w.batches
    ensures RejectBatch(w, queue, b)
            == RejectBatch(if OfBatch(w, queue[0], b) then RejectQueued(w, queue[0]) else w, queue[1..], b)
    ensures Retained(w, queue, b) == (if OfBatch(w, queue[0], b) then [] else [queue[0]]) + Retained(w, queue[1..], b)
  {
  }

  lemma SweepNothing(w: World, b: BatchId)
    requires b in w.batches
    ensures RejectBatch(w, [], b) == w && Retained(w, [], b) == []
  {
  }

  lemma RejectQueuedFrame(w: World, j: JobId)
    requires j in w.jobs && w.jobs[j].batch in w.batches
    ensures
      var v := RejectQueued(w, j);
      && v == w.(jobs := v.jobs, batches := v.batches)
      && v.jobs.Keys == w.jobs.Keys && v.batches.Keys == w.batches.Keys
      && forall i :: i in w.jobs ==> v.jobs[i].batch == w.jobs[i].batch
  {
  }

  lemma SweptJobsAreKnown(w: World, b: BatchId)
    requires Sound(w) && b in w.batches && w.batches[b].scope in w.schedulers
    ensures
      var v := RejectBatch(w, w.schedulers[w.batches[b].scope].queue, b);
      b in v.batches && forall j :: j in v.batches[b].jobs ==> j in v.jobs
  {
    RejectBatchRejects(w, w.schedulers[w.batches[b].scope].queue, b);
    assert forall j :: j in w.batches[b].jobs ==> OfBatch(w, j, b);
  }

  lemma SweptIsSound(w: World, b: BatchId)
    requires Sound(w) && b in w.batches && w.batches[b].scope in w.schedulers
    ensures Sound(Swept(w, b))
  {
    hide JobsOk, SchedulersOk;
    SweptBooks(w, b);
    SweptJobsOk(w, Swept(w, b), b);
    SweptSchedulersOk(w, Swept(w, b), b);
  }

  lemma ActiveJobIsKnown(w: World, j: JobId)
    requires Books(w) && j in w.jobs && w.jobs[j].state == Active
    ensures w.jobs[j].batch in w.batches && w.jobs[j].scope in w.schedulers
  {
    assert JobOk(w, j);
  }

  lemma FreedIsSound(w: World, j: JobId)
    requires Books(w) && j in w.jobs && w.jobs[j].state == Active && w.jobs[j].returned
    requires w.jobs[j].batch in w.batches && w.jobs[j].scope in w.schedulers
    ensures Sound(Freed(w, j))
  {
    hide QueueOk, Running;
    var v := Freed(w, j);
    assert JobOk(w, j);
    JobsFollow(w, v, j);
    FreedSlots(w, j);
    FreedQueue(w, v, j, w.schedulers[w.jobs[j].scope].queue);
    SchedulersFollow(w, v, j);
  }
}
