// Delivery of one scrobble dispatch: workers claim it under a lease, may crash, lose the lease or
// fail, and decide from the claimed record alone whether it may be sent to Trakt again.
module ScrobbleDispatch {
  import opened Outcomes

  datatype Status = Queued | Leased | Delivered | Revoked

  /** The stored record. Every claim increments `attemptCount` and issues a new lease token; the
      token is identified by the number of the claim that issued it. */
  datatype Dispatch = Dispatch(
    status: Status,
    attemptCount: nat,
    createdAt: nat,
    nextAttemptAt: nat,
    lease: nat,
    leaseExpiresAt: nat)

  /** A request that left for Trakt. It may take effect long after its sender is gone, unless the
      failure proved that it never got there. */
  datatype Flight = InFlight | Effective | NeverLeft

  datatype Request = Request(claim: nat, flight: Flight)

  /** Program points of _processClaimedDispatch for the worker that made claim number `claim`. */
  datatype Worker =
    | Consuming(claim: nat)
    | Resolving(claim: nat)
    | Admitting(claim: nat)
    | Sending(claim: nat, request: nat)
    | Finishing(claim: nat)
    | Retrying(claim: nat)
    | Idle

  datatype World = World(dispatch: Dispatch, now: nat, requests: seq<Request>, workers: map<nat, Worker>)

  datatype SendOutcome = Answered | ProvenPreEffect | Unknown

  datatype Step =
    | Tick(elapsed: nat)
    | Claim(pid: nat, leaseMs: nat)
    | Resolve(pid: nat, found: bool)
    | Admit(pid: nat, authoritative: bool)
    | Settle(pid: nat, outcome: SendOutcome)
    | Land(request: nat)
    | Finish(pid: nat)
    | Consume(pid: nat, authoritative: bool)
    | Retry(pid: nat, nextAttemptAt: nat, authoritative: bool)
    | Revoke
    | Crash(pid: nat)

  /** _isRecoveredAmbiguousLease. */
  predicate IsRecoveredAmbiguousLease(d: Dispatch) {
    d.attemptCount > 1 && !(d.attemptCount == 2 && d.nextAttemptAt > d.createdAt)
  }

  predicate Claimable(d: Dispatch, now: nat) {
    (d.status == Queued && d.nextAttemptAt <= now) || (d.status == Leased && d.leaseExpiresAt <= now)
  }

  predicate OwnsLease(d: Dispatch, claim: nat) {
    d.status == Leased && d.lease == claim
  }

  function WorkerAt(w: World, pid: nat): Worker {
    if pid in w.workers then w.workers[pid] else Idle
  }

  function Moved(w: World, pid: nat, worker: Worker): World {
    w.(workers := w.workers[pid := worker])
  }

  /** claimDispatch, and the decision taken on the record it returned. */
  function ClaimStep(w: World, pid: nat, leaseMs: nat): World {
    var d := w.dispatch;
    if WorkerAt(w, pid) != Idle || !Claimable(d, w.now) then w
    else
      var claim := d.attemptCount + 1;
      var claimed := d.(status := Leased, attemptCount := claim, lease := claim, leaseExpiresAt := w.now + leaseMs);
      var worker := if IsRecoveredAmbiguousLease(claimed) then Consuming(claim) else Resolving(claim);
      Moved(w.(dispatch := claimed), pid, worker)
  }

  /** The entry of withDispatchAdmission, which sends at once when it is admitted. */
  function AdmitStep(w: World, pid: nat, authoritative: bool): World {
    var worker := WorkerAt(w, pid);
    if !worker.Admitting? then w
    else if !OwnsLease(w.dispatch, worker.claim) || w.dispatch.leaseExpiresAt <= w.now then
      Moved(w, pid, Idle)
    else if !authoritative then
      Moved(w.(dispatch := w.dispatch.(status := Revoked)), pid, Idle)
    else
      Moved(w.(requests := w.requests + [Request(worker.claim, InFlight)]), pid,
            Sending(worker.claim, |w.requests|))
  }

  /** The transport answers, fails provably before any effect, or fails in an unknown way. */
  function SettleStep(w: World, pid: nat, outcome: SendOutcome): World {
    var worker := WorkerAt(w, pid);
    if !worker.Sending? || worker.request >= |w.requests| then w
    else
      var request := w.requests[worker.request];
      match outcome
      case ProvenPreEffect =>
        if request.flight != InFlight then w
        else
          Moved(w.(requests := w.requests[worker.request := request.(flight := NeverLeft)]), pid,
                Retrying(worker.claim))
      case _ => Moved(w, pid, Finishing(worker.claim))
  }

  /** retryDispatch: needs the current lease, moves the record back to the queue. */
  function RetryStep(w: World, pid: nat, nextAttemptAt: nat, authoritative: bool): World {
    var worker := WorkerAt(w, pid);
    if !worker.Retrying? then w
    else if !OwnsLease(w.dispatch, worker.claim) then Moved(w, pid, Idle)
    else if !authoritative then Moved(w.(dispatch := w.dispatch.(status := Revoked)), pid, Idle)
    else
      Moved(w.(dispatch := w.dispatch.(status := Queued, nextAttemptAt := nextAttemptAt)), pid, Idle)
  }

  /** The end of withDispatchAdmission: the record is delivered if the lease is still held. */
  function FinishStep(w: World, pid: nat): World {
    var worker := WorkerAt(w, pid);
    if !worker.Finishing? then w
    else if !OwnsLease(w.dispatch, worker.claim) then Moved(w, pid, Idle)
    else Moved(w.(dispatch := w.dispatch.(status := Delivered)), pid, Idle)
  }

  /** A recovered lease is admitted with an empty operation: consumed without a request. */
  function ConsumeStep(w: World, pid: nat, authoritative: bool): World {
    var worker := WorkerAt(w, pid);
    if !worker.Consuming? then w
    else if !OwnsLease(w.dispatch, worker.claim) || w.dispatch.leaseExpiresAt <= w.now then
      Moved(w, pid, Idle)
    else
      Moved(w.(dispatch := w.dispatch.(status := if authoritative then Delivered else Revoked)), pid, Idle)
  }

  function Apply(w: World, step: Step): World {
    match step
    case Tick(elapsed) => w.(now := w.now + elapsed)
    case Claim(pid, leaseMs) => ClaimStep(w, pid, leaseMs)
    case Resolve(pid, found) =>
      var worker := WorkerAt(w, pid);
      if !worker.Resolving? then w
      else Moved(w, pid, if found then Admitting(worker.claim) else Retrying(worker.claim))
    case Admit(pid, authoritative) => AdmitStep(w, pid, authoritative)
    case Settle(pid, outcome) => SettleStep(w, pid, outcome)
    case Land(request) =>
      if request < |w.requests| && w.requests[request].flight == InFlight then
        w.(requests := w.requests[request := w.requests[request].(flight := Effective)])
      else w
    case Finish(pid) => FinishStep(w, pid)
    case Consume(pid, authoritative) => ConsumeStep(w, pid, authoritative)
    case Retry(pid, nextAttemptAt, authoritative) => RetryStep(w, pid, nextAttemptAt, authoritative)
    case Revoke => if w.dispatch.status == Delivered then w else w.(dispatch := w.dispatch.(status := Revoked))
    case Crash(pid) => w.(workers := w.workers - {pid})
  }

  function Run(w: World, steps: seq<Step>): World
    decreases |steps|
  {
    if |steps| == 0 then w else Apply(Run(w, steps[..|steps| - 1]), steps[|steps| - 1])
  }

  function Initial(createdAt: nat): World {
    World(Dispatch(Queued, 0, createdAt, createdAt, 0, 0), createdAt, [], map[])
  }

  // ---------------------------------------------------------------- invariant

  /** A worker that may still send, or whose request may still take effect. */
  predicate MaySend(worker: Worker, claim: nat) {
    match worker
    case Resolving(c) => c == claim
    case Admitting(c) => c == claim
    case Sending(c, _) => c == claim
    case _ => false
  }

  function ClaimOf(worker: Worker): nat {
    if worker.Idle? then 0 else worker.claim
  }

  /** Nothing sent under this claim has taken effect or ever will. */
  ghost predicate Spent(w: World, claim: nat) {
    && (forall i :: 0 <= i < |w.requests| && w.requests[i].claim == claim ==> w.requests[i].flight == NeverLeft)
    && (forall pid :: pid in w.workers ==> !MaySend(w.workers[pid], claim))
  }

  ghost predicate Unsent(w: World, claim: nat) {
    forall i :: 0 <= i < |w.requests| ==> w.requests[i].claim != claim
  }

  ghost predicate WorkerOk(w: World, worker: Worker) {
    && ClaimOf(worker) <= w.dispatch.attemptCount
    && (!worker.Idle? ==> worker.claim >= 1)
    && match worker
       case Resolving(c) => c <= 2 && Unsent(w, c)
       case Admitting(c) => c <= 2 && Unsent(w, c)
       case Sending(c, k) => c <= 2 && k < |w.requests| && w.requests[k].claim == c
       case Finishing(c) => c <= 2
       case Retrying(c) => c <= 2 && NothingFlies(w, c)
       case _ => true
  }

  ghost predicate NothingFlies(w: World, claim: nat) {
    forall i :: 0 <= i < |w.requests| && w.requests[i].claim == claim ==> w.requests[i].flight == NeverLeft
  }

  /** A second claim that is still allowed to send, or to requeue. */
  predicate SecondChance(worker: Worker) {
    (worker.Resolving? || worker.Admitting? || worker.Sending? || worker.Retrying?) && worker.claim == 2
  }

  ghost predicate RequestsOk(w: World) {
    && (forall i :: 0 <= i < |w.requests| ==>
          1 <= w.requests[i].claim <= 2 && w.requests[i].claim <= w.dispatch.attemptCount)
    && (forall i, j :: 0 <= i < j < |w.requests| ==> w.requests[i].claim != w.requests[j].claim)
  }

  /** A record that retryDispatch moved, or a second claim allowed to send, has a spent first claim. */
  ghost predicate FirstClaimOk(w: World) {
    && (w.dispatch.attemptCount == 1 && w.dispatch.nextAttemptAt > w.dispatch.createdAt ==> Spent(w, 1))
    && (forall pid :: pid in w.workers && SecondChance(w.workers[pid]) ==> Spent(w, 1))
    && (forall i :: 0 <= i < |w.requests| && w.requests[i].claim == 2 ==> Spent(w, 1))
  }

  ghost predicate Inv(w: World) {
    && (w.dispatch.status == Leased ==> w.dispatch.lease == w.dispatch.attemptCount)
    && (w.dispatch.attemptCount == 0 ==> w.dispatch.nextAttemptAt == w.dispatch.createdAt)
    && (forall pid :: pid in w.workers ==> WorkerOk(w, w.workers[pid]))
    && (forall p, q :: p in w.workers && q in w.workers && p != q ==>
          w.workers[p].Idle? || ClaimOf(w.workers[p]) != ClaimOf(w.workers[q]))
    && RequestsOk(w)
    && FirstClaimOk(w)
  }

  // ---------------------------------------------------------------- every step keeps it

  lemma ClaimKeeps(w: World, pid: nat, leaseMs: nat)
    requires Inv(w)
    ensures Inv(ClaimStep(w, pid, leaseMs))
  {
    var w' := ClaimStep(w, pid, leaseMs);
    if w' != w && SecondChance(w'.workers[pid]) {
      assert w.dispatch.attemptCount == 1 && w.dispatch.nextAttemptAt > w.dispatch.createdAt;
      assert Spent(w, 1);
    }
    assert Spent(w, 1) && w' != w && w.dispatch.attemptCount > 0 ==> Spent(w', 1);
  }

  /** A worker goes idle, or on with the same claim, and no request is added. */
  lemma MoveKeeps(w: World, w': World, pid: nat)
    requires Inv(w) && pid in w.workers && !w.workers[pid].Idle?
    requires w'.requests == w.requests && pid in w'.workers && w'.workers == w.workers[pid := w'.workers[pid]]
    requires
      var d, d' := w.dispatch, w'.dispatch;
      && d'.attemptCount == d.attemptCount && d'.createdAt == d.createdAt && d'.nextAttemptAt == d.nextAttemptAt
      && d'.lease == d.lease && (d'.status == Leased ==> d.status == Leased)
    requires w'.workers[pid].Idle? || StaysWith(w, w.workers[pid], w'.workers[pid])
    ensures Inv(w')
  {
    assert Spent(w, 1) ==> Spent(w', 1);
    forall q | q in w'.workers ensures WorkerOk(w', w'.workers[q]) {
      assert q != pid ==> WorkerOk(w, w.workers[q]);
    }
  }

  ghost predicate StaysWith(w: World, worker: Worker, worker': Worker) {
    && ClaimOf(worker') == ClaimOf(worker) && WorkerOk(w, worker')
    && (MaySend(worker', 1) ==> MaySend(worker, 1))
    && (SecondChance(worker') ==> SecondChance(worker))
  }

  lemma ResolveKeeps(w: World, pid: nat, found: bool)
    requires Inv(w)
    ensures Inv(Apply(w, Resolve(pid, found)))
  {
    hide Spent, RequestsOk, FirstClaimOk;
    if WorkerAt(w, pid).Resolving? {
      assert WorkerOk(w, w.workers[pid]);
      MoveKeeps(w, Apply(w, Resolve(pid, found)), pid);
    }
  }

  lemma AdmitKeeps(w: World, pid: nat, authoritative: bool)
    requires Inv(w)
    ensures Inv(AdmitStep(w, pid, authoritative))
  {
    hide Inv;
    var worker, w' := WorkerAt(w, pid), AdmitStep(w, pid, authoritative);
    if worker.Admitting? {
      if w'.requests == w.requests {
        MoveKeeps(w, w', pid);
      } else {
        SendKeeps(w, pid, worker.claim);
      }
    }
  }

  function Sent(w: World, pid: nat, claim: nat): World {
    Moved(w.(requests := w.requests + [Request(claim, InFlight)]), pid, Sending(claim, |w.requests|))
  }

  lemma SendKeeps(w: World, pid: nat, claim: nat)
    requires Inv(w) && pid in w.workers && w.workers[pid] == Admitting(claim)
    ensures Inv(Sent(w, pid, claim))
  {
    var w' := Sent(w, pid, claim);
    assert WorkerOk(w, w.workers[pid]);
    assert Spent(w, 1) ==> Spent(w', 1);
    forall q | q in w'.workers ensures WorkerOk(w', w'.workers[q]) {
      assert q != pid ==> WorkerOk(w, w.workers[q]) && ClaimOf(w.workers[q]) != claim;
    }
  }

  lemma SettleKeeps(w: World, pid: nat, outcome: SendOutcome)
    requires Inv(w)
    ensures Inv(SettleStep(w, pid, outcome))
  {
    var worker, w' := WorkerAt(w, pid), SettleStep(w, pid, outcome);
    if worker.Sending? && worker.request < |w.requests| && w' != w {
      assert WorkerOk(w, worker);
      if outcome.ProvenPreEffect? {
        ProvenKeeps(w, pid, worker.claim, worker.request);
      } else {
        hide Spent, RequestsOk, FirstClaimOk;
        MoveKeeps(w, w', pid);
      }
    }
  }

  lemma ProvenKeeps(w: World, pid: nat, claim: nat, k: nat)
    requires Inv(w) && pid in w.workers && w.workers[pid] == Sending(claim, k) && k < |w.requests|
    ensures Inv(Moved(w.(requests := w.requests[k := w.requests[k].(flight := NeverLeft)]), pid, Retrying(claim)))
  {
    var w' := Moved(w.(requests := w.requests[k := w.requests[k].(flight := NeverLeft)]), pid, Retrying(claim));
    assert WorkerOk(w, w.workers[pid]);
    assert Spent(w, 1) ==> Spent(w', 1);
    forall q | q in w'.workers ensures WorkerOk(w', w'.workers[q]) {
      assert q != pid ==> WorkerOk(w, w.workers[q]);
    }
  }

  lemma LandKeeps(w: World, request: nat)
    requires Inv(w)
    ensures Inv(Apply(w, Land(request)))
  {
    var w' := Apply(w, Land(request));
    assert Spent(w, 1) ==> Spent(w', 1);
    forall q | q in w'.workers ensures WorkerOk(w', w'.workers[q]) {
      assert WorkerOk(w, w.workers[q]);
    }
  }

  lemma RetryKeeps(w: World, pid: nat, nextAttemptAt: nat, authoritative: bool)
    requires Inv(w)
    ensures Inv(RetryStep(w, pid, nextAttemptAt, authoritative))
  {
    var worker, w' := WorkerAt(w, pid), RetryStep(w, pid, nextAttemptAt, authoritative);
    if worker.Retrying? {
      assert WorkerOk(w, worker);
      assert Spent(w, 1) ==> Spent(w', 1);
      if worker.claim == 1 {
        forall q | q in w'.workers ensures !MaySend(w'.workers[q], 1) {
          assert q != pid ==> ClaimOf(w.workers[pid]) != ClaimOf(w.workers[q]);
        }
        assert Spent(w', 1);
      }
    }
  }

  lemma FinishKeeps(w: World, pid: nat)
    requires Inv(w)
    ensures Inv(FinishStep(w, pid))
  {
    hide Inv;
    if WorkerAt(w, pid).Finishing? {
      MoveKeeps(w, FinishStep(w, pid), pid);
    }
  }

  lemma ConsumeKeeps(w: World, pid: nat, authoritative: bool)
    requires Inv(w)
    ensures Inv(ConsumeStep(w, pid, authoritative))
  {
    hide Inv;
    if WorkerAt(w, pid).Consuming? {
      MoveKeeps(w, ConsumeStep(w, pid, authoritative), pid);
    }
  }

  lemma QuietKeeps(w: World, step: Step)
    requires Inv(w) && (step.Tick? || step.Revoke? || step.Crash?)
    ensures Inv(Apply(w, step))
  {
    var w' := Apply(w, step);
    assert Spent(w, 1) ==> Spent(w', 1);
    forall q | q in w'.workers ensures WorkerOk(w', w'.workers[q]) {
      assert WorkerOk(w, w.workers[q]);
    }
  }

  lemma {:induction false} Reachable(createdAt: nat, steps: seq<Step>)
    ensures Inv(Run(Initial(createdAt), steps))
    decreases |steps|
  {
    if |steps| > 0 {
      var w := Run(Initial(createdAt), steps[..|steps| - 1]);
      Reachable(createdAt, steps[..|steps| - 1]);
      match steps[|steps| - 1]
      case Claim(pid, leaseMs) => ClaimKeeps(w, pid, leaseMs);
      case Resolve(pid, found) => ResolveKeeps(w, pid, found);
      case Admit(pid, authoritative) => AdmitKeeps(w, pid, authoritative);
      case Settle(pid, outcome) => SettleKeeps(w, pid, outcome);
      case Land(request) => LandKeeps(w, request);
      case Retry(pid, nextAttemptAt, authoritative) => RetryKeeps(w, pid, nextAttemptAt, authoritative);
      case Tick(_) => QuietKeeps(w, steps[|steps| - 1]);
      case Finish(pid) => FinishKeeps(w, pid);
      case Consume(pid, authoritative) => ConsumeKeeps(w, pid, authoritative);
      case Revoke => QuietKeeps(w, steps[|steps| - 1]);
      case Crash(_) => QuietKeeps(w, steps[|steps| - 1]);
    }
  }

  // ---------------------------------------------------------------- what it means

  /** At most once: of all requests ever sent for the dispatch, at most one has taken effect or may
      still do so. */
  lemma AtMostOneRequestTakesEffect(createdAt: nat, steps: seq<Step>, i: nat, j: nat)
    requires var w := Run(Initial(createdAt), steps); i < |w.requests| && j < |w.requests| && i != j
    ensures
      var w := Run(Initial(createdAt), steps);
      w.requests[i].flight == NeverLeft || w.requests[j].flight == NeverLeft
  {
    Reachable(createdAt, steps);
  }

  /** Only the first two claims ever send, and no claim sends twice. */
  lemma OnlyTheFirstTwoClaimsSend(createdAt: nat, steps: seq<Step>)
    ensures
      var requests := Run(Initial(createdAt), steps).requests;
      && (forall i :: 0 <= i < |requests| ==> 1 <= requests[i].claim <= 2)
      && (forall i, j :: 0 <= i < j < |requests| ==> requests[i].claim != requests[j].claim)
  {
    Reachable(createdAt, steps);
  }

  /** From the third claim on the dispatch can only be consumed. */
  lemma LaterClaimsNeverSend(createdAt: nat, steps: seq<Step>, pid: nat)
    requires var w := Run(Initial(createdAt), steps); pid in w.workers && ClaimOf(w.workers[pid]) > 2
    ensures
      var worker := Run(Initial(createdAt), steps).workers[pid];
      worker.Consuming?
  {
    Reachable(createdAt, steps);
    assert WorkerOk(Run(Initial(createdAt), steps), Run(Initial(createdAt), steps).workers[pid]);
  }

  /** retryDispatch succeeds and moves the time of the next attempt beyond the dispatch's creation. */
  predicate Requeues(w: World, step: Step) {
    && step.Retry? && WorkerAt(w, step.pid).Retrying? && OwnsLease(w.dispatch, WorkerAt(w, step.pid).claim)
    && step.authoritative && step.nextAttemptAt > w.dispatch.createdAt
  }

  /** The time of the next attempt was never moved on, and only a first claim may be more than consuming. */
  ghost predicate NeverRequeued(w: World) {
    && w.dispatch.nextAttemptAt <= w.dispatch.createdAt
    && forall pid :: pid in w.workers && ClaimOf(w.workers[pid]) >= 2 ==> w.workers[pid].Consuming?
  }

  lemma OnlyARetryRequeues(w: World, step: Step)
    requires NeverRequeued(w) && !Requeues(w, step)
    ensures NeverRequeued(Apply(w, step))
  {
  }

  /** So it can on a second claim that no such durable retry preceded, whatever expired or crashed. */
  lemma {:induction false} WithoutARetryOnlyTheFirstClaimSends(createdAt: nat, steps: seq<Step>)
    requires forall i :: 0 <= i < |steps| ==> !Requeues(Run(Initial(createdAt), steps[..i]), steps[i])
    ensures NeverRequeued(Run(Initial(createdAt), steps))
    decreases |steps|
  {
    hide Apply, Requeues;
    if |steps| > 0 {
      var front := steps[..|steps| - 1];
      forall i | 0 <= i < |front| ensures !Requeues(Run(Initial(createdAt), front[..i]), front[i]) {
        assert front[..i] == steps[..i];
      }
      WithoutARetryOnlyTheFirstClaimSends(createdAt, front);
      OnlyARetryRequeues(Run(Initial(createdAt), front), steps[|steps| - 1]);
    }
  }

  /** A second claim may send only if nothing of the first can have reached Trakt. */
  lemma SecondClaimSendsAfterASpentFirst(createdAt: nat, steps: seq<Step>, pid: nat)
    requires
      var w := Run(Initial(createdAt), steps);
      pid in w.workers && w.workers[pid].Admitting? && w.workers[pid].claim == 2
    ensures
      var w := Run(Initial(createdAt), steps);
      && (forall i :: 0 <= i < |w.requests| ==> w.requests[i].claim == 1 && w.requests[i].flight == NeverLeft)
      && (forall q :: q in w.workers ==> !MaySend(w.workers[q], 1))
  {
    Reachable(createdAt, steps);
    var w := Run(Initial(createdAt), steps);
    assert WorkerOk(w, w.workers[pid]) && SecondChance(w.workers[pid]);
  }

  // ---------------------------------------------------------------- what is sent again

  /** A durable retry moved the dispatch to a later time somewhere in the run. */
  ghost predicate WasRequeued(createdAt: nat, steps: seq<Step>) {
    exists i :: 0 <= i < |steps| && Requeues(Run(Initial(createdAt), steps[..i]), steps[i])
  }

  /** Before the second claim the record's own times tell whether there was a retry. */
  ghost predicate TimesTell(w: World, requeued: bool) {
    w.dispatch.attemptCount <= 1 ==>
      && (w.dispatch.nextAttemptAt > w.dispatch.createdAt <==> requeued)
      && (w.dispatch.status == Leased ==> w.dispatch.nextAttemptAt == w.dispatch.createdAt)
  }

  lemma TimesGoOnTelling(w: World, step: Step, requeued: bool)
    requires Inv(w) && TimesTell(w, requeued)
    ensures TimesTell(Apply(w, step), requeued || Requeues(w, step))
  {
    hide Spent, RequestsOk, FirstClaimOk, Unsent, NothingFlies;
    if step.Retry? && WorkerAt(w, step.pid).Retrying? {
      assert WorkerOk(w, w.workers[step.pid]);
    }
  }

  lemma {:induction false} RunTimesTell(createdAt: nat, steps: seq<Step>)
    ensures TimesTell(Run(Initial(createdAt), steps), WasRequeued(createdAt, steps))
    decreases |steps|
  {
    hide Apply, Requeues, Inv, TimesTell;
    if |steps| == 0 {
      assert TimesTell(Initial(createdAt), false) by {
        StartTells(createdAt);
      }
    } else {
      var front, last := steps[..|steps| - 1], steps[|steps| - 1];
      RunTimesTell(createdAt, front);
      Reachable(createdAt, front);
      TimesGoOnTelling(Run(Initial(createdAt), front), last, WasRequeued(createdAt, front));
      RequeuedSoFar(createdAt, steps);
    }
  }

  lemma StartTells(createdAt: nat)
    ensures TimesTell(Initial(createdAt), false)
  {
  }

  lemma RequeuedSoFar(createdAt: nat, steps: seq<Step>)
    requires |steps| > 0
    ensures
      var front := steps[..|steps| - 1];
      WasRequeued(createdAt, steps)
      <==> WasRequeued(createdAt, front) || Requeues(Run(Initial(createdAt), front), steps[|steps| - 1])
  {
    hide Run, Requeues;
    var front := steps[..|steps| - 1];
    assert forall i :: 0 <= i < |front| ==> front[..i] == steps[..i];
  }

  /** Over every run a dispatch is claimed exactly when it waits and its time has come, or its lease has run out.
      The claim goes on to send exactly if it is the first one, or the second after a durable retry; any other only
      consumes it. */
  lemma AClaimSendsExactly(createdAt: nat, steps: seq<Step>, pid: nat, leaseMs: nat)
    ensures
      var w := Run(Initial(createdAt), steps);
      var v := Apply(w, Claim(pid, leaseMs));
      var due := || (w.dispatch.status == Queued && w.dispatch.nextAttemptAt <= w.now)
                 || (w.dispatch.status == Leased && w.dispatch.leaseExpiresAt <= w.now);
      if !WorkerAt(w, pid).Idle? || !due then v == w
      else
        var claim := w.dispatch.attemptCount + 1;
        && v.dispatch == w.dispatch.(status := Leased, attemptCount := claim, lease := claim,
                                     leaseExpiresAt := w.now + leaseMs)
        && pid in v.workers
        && v.workers[pid] == if claim == 1 || (claim == 2 && WasRequeued(createdAt, steps)) then Resolving(claim)
                             else Consuming(claim)
  {
    hide Run, WasRequeued;
    RunTimesTell(createdAt, steps);
  }

  /** An admission adds exactly one request, of its own claim, exactly if the lease is current and unexpired and
      the profile still stands behind it; otherwise nothing is sent. */
  lemma AnAdmissionSendsExactly(w: World, pid: nat, authoritative: bool)
    requires pid in w.workers && w.workers[pid].Admitting?
    ensures
      var claim, v := w.workers[pid].claim, Apply(w, Admit(pid, authoritative));
      if OwnsLease(w.dispatch, claim) && w.dispatch.leaseExpiresAt > w.now && authoritative then
        v == w.(requests := w.requests + [Request(claim, InFlight)],
                workers := w.workers[pid := Sending(claim, |w.requests|)])
      else v.requests == w.requests && v.workers == w.workers[pid := Idle]
  {
  }

  /** A dispatch whose claim sends, undisturbed and answered, is delivered with exactly one more request. */
  lemma AnUndisturbedDeliverySucceeds(w: World, pid: nat)
    requires pid in w.workers && w.workers[pid].Resolving?
    requires OwnsLease(w.dispatch, w.workers[pid].claim) && w.dispatch.leaseExpiresAt > w.now
    ensures
      var sent := Apply(Apply(w, Resolve(pid, true)), Admit(pid, true));
      var v := Apply(Apply(sent, Settle(pid, Answered)), Finish(pid));
      && v.dispatch.status == Delivered && v.requests == w.requests + [Request(w.workers[pid].claim, InFlight)]
  {
    var claim := w.workers[pid].claim;
    var w1 := Apply(w, Resolve(pid, true));
    assert w1 == w.(workers := w.workers[pid := Admitting(claim)]);
    var w2 := Apply(w1, Admit(pid, true));
    AnAdmissionSendsExactly(w1, pid, true);
    assert w2.workers[pid] == Sending(claim, |w.requests|);
    var w3 := Apply(w2, Settle(pid, Answered));
    assert w3.workers[pid] == Finishing(claim) && w3.dispatch == w.dispatch && w3.requests == w2.requests;
  }

  /** A failure proven to come before any effect puts the dispatch back to be claimed again at the time given. */
  lemma AProvenFailureIsRequeued(w: World, pid: nat, nextAttemptAt: nat)
    requires pid in w.workers && w.workers[pid].Sending? && w.workers[pid].request < |w.requests|
    requires w.requests[w.workers[pid].request].flight == InFlight && OwnsLease(w.dispatch, w.workers[pid].claim)
    ensures
      var v := Apply(Apply(w, Settle(pid, ProvenPreEffect)), Retry(pid, nextAttemptAt, true));
      && v.dispatch == w.dispatch.(status := Queued, nextAttemptAt := nextAttemptAt)
      && v.requests[w.workers[pid].request].flight == NeverLeft
      && (w.now >= nextAttemptAt ==> Claimable(v.dispatch, v.now))
  {
    var w1 := Apply(w, Settle(pid, ProvenPreEffect));
    assert w1.workers[pid] == Retrying(w.workers[pid].claim) && w1.dispatch == w.dispatch;
  }

  /** Consuming, finishing and retrying move the record exactly while the worker still owns its lease. */
  lemma TheOwnerMovesTheRecord(w: World, pid: nat, nextAttemptAt: nat, authoritative: bool)
    requires pid in w.workers && !w.workers[pid].Idle?
    ensures
      var worker, d := w.workers[pid], w.dispatch;
      var owns := OwnsLease(d, worker.claim);
      && (worker.Consuming? ==>
            Apply(w, Consume(pid, authoritative)).dispatch
            == if owns && d.leaseExpiresAt > w.now then
                 d.(status := if authoritative then Delivered else Revoked) else d)
      && (worker.Finishing? ==> Apply(w, Finish(pid)).dispatch == if owns then d.(status := Delivered) else d)
      && (worker.Retrying? ==>
            Apply(w, Retry(pid, nextAttemptAt, authoritative)).dispatch
            == if !owns then d
               else if authoritative then d.(status := Queued, nextAttemptAt := nextAttemptAt)
               else d.(status := Revoked))
  {
  }

  /** An answer, whatever it says, and a failure that may have had an effect end in delivery; only a failure proven
      to come before any effect, and a credential that is missing, end in a retry. */
  lemma OnlyProvenFailuresAreRetried(w: World, pid: nat, outcome: SendOutcome, found: bool)
    requires pid in w.workers
    requires w.workers[pid].Sending? ==>
      w.workers[pid].request < |w.requests| && w.requests[w.workers[pid].request].flight == InFlight
    ensures
      var worker := w.workers[pid];
      && (worker.Sending? ==>
            Apply(w, Settle(pid, outcome)).workers[pid]
            == if outcome == ProvenPreEffect then Retrying(worker.claim) else Finishing(worker.claim))
      && (worker.Resolving? ==>
            Apply(w, Resolve(pid, found)).workers[pid]
            == if found then Admitting(worker.claim) else Retrying(worker.claim))
  {
  }
}
