// Single use and the disconnect barrier, over every run of the Trakt credential protocol.
module TraktSafety {
  import opened Outcomes
  import opened TraktCredential
  import opened TraktProtocol

  // ---------------------------------------------------------------- invariant

  predicate Stored(w: World, t: Token) {
    |w.history| > 0 && Record(w).credentials.tokens.refresh == Some(t)
  }

  /** The refresh token a process is about to send, or is about to store after upstream issued it. */
  function Carried(p: Process): Option<Token> {
    match p
    case Send(_, token, _, _) => Some(token)
    case Store(_, tokens, _, _) => tokens.refresh
    case ReplaceGet(_, _, tokens) => tokens.refresh
    case ReplacePut(_, _, _, tokens) => tokens.refresh
    case _ => None
  }

  ghost predicate Loose(w: World, t: Token) {
    t in w.seen && t !in w.sent && !Stored(w, t) && |w.history| > 0
  }

  /** The claim a refresher made is still in the history, marked with its attempt. */
  ghost predicate ClaimOk(w: World, claimed: nat, attempt: AttemptId, generation: GenerationId) {
    && 0 < claimed <= |w.history|
    && w.history[claimed - 1].credentials == TokenFree(false, InFlight(attempt), generation)
  }

  ghost predicate ProcessOk(w: World, p: Process) {
    && Sighted(w, p)
    && (Carried(p).Some? ==> Loose(w, Carried(p).value))
    && match p
       case Send(claimed, _, attempt, generation) => ClaimOk(w, claimed, attempt, generation)
       case Store(claimed, _, attempt, generation) => ClaimOk(w, claimed, attempt, generation)
       case CallbackCheck(_, launched) => 0 < launched <= |w.history|
       case Exchange(_, launched) => 0 < launched <= |w.history|
       case ReplaceGet(_, launched, _) => 0 < launched <= |w.history|
       case ReplacePut(base, _, launched, _) => 0 < launched == base <= |w.history|
       case DisconnectPut(_, base) => 0 < base
       case _ => true
  }

  /** Tokens, and claims that will bring tokens back, descend from an authorization launched at
      the last disconnect or later. */
  ghost predicate Descends(w: World) {
    |w.history| > 0 ==>
      HasTokens(Record(w).credentials.tokens) || Record(w).credentials.refreshField.InFlight? ==>
        Record(w).origin >= w.barrier
  }

  ghost predicate RecordOk(w: World) {
    && (forall t :: t in w.sent ==> w.sent[t] == 1 && t in w.seen && !Stored(w, t))
    && (forall t :: Stored(w, t) ==> t in w.seen)
    && (|w.history| == 0 ==> |w.sent| == 0)
    && (forall i :: i in w.issued ==> 0 < i.1 <= |w.history|)
    && w.barrier <= |w.history|
    && Descends(w)
  }

  ghost predicate Distinct(p: Process, q: Process) {
    Carried(p).Some? ==> Carried(p) != Carried(q)
  }

  ghost predicate Inv(w: World) {
    && RecordOk(w)
    && (forall pid :: pid in w.processes ==> ProcessOk(w, w.processes[pid]))
    && (forall p, q :: p in w.processes && q in w.processes && p != q ==>
          Distinct(w.processes[p], w.processes[q]))
  }

  // ---------------------------------------------------------------- one step

  /** How a step of process p, carrying `mine`, may change what the others rely on. */
  ghost predicate Evolves(w: World, v: World, mine: Option<Token>) {
    && w.history <= v.history
    && w.seen <= v.seen
    && w.issued <= v.issued
    && (forall t: Token :: Loose(w, t) && mine != Some(t) ==> Loose(v, t))
  }

  lemma OthersUnaffected(w: World, v: World, mine: Option<Token>, q: Process)
    requires ProcessOk(w, q) && Evolves(w, v, mine)
    requires Carried(q).Some? ==> Carried(q) != mine
    ensures ProcessOk(v, q)
  {
  }

  ghost predicate StepKeeps(w: World, p: Process, v: World, p': Process) {
    && RecordOk(v) && Evolves(w, v, Carried(p)) && ProcessOk(v, p')
    && (Carried(p').Some? ==>
          Carried(p') == Carried(p) || Carried(p').value !in w.seen || Stored(w, Carried(p').value))
    && v.processes == w.processes
  }

  /** Putting a record keeps the invariant if its token is the stored one, a loose one that is the
      writer's own, or none, and its lineage is not older than the last disconnect. */
  lemma PutKeeps(w: World, credentials: Credentials, origin: nat, mine: Option<Token>)
    requires RecordOk(w)
    requires
      || credentials.tokens.refresh.None?
      || Stored(w, credentials.tokens.refresh.value)
      || (mine == credentials.tokens.refresh && Loose(w, mine.value))
      || |w.history| == 0
    requires HasTokens(credentials.tokens) || credentials.refreshField.InFlight? ==> origin >= w.barrier
    ensures RecordOk(Put(w, credentials, origin)) && Evolves(w, Put(w, credentials, origin), mine)
  {
  }

  /** What runs after the credential has a generation starts from a sound state. */
  lemma EnsuredKeeps(w: World, u: World, p: Process, base: nat, next: Then)
    requires RecordOk(u) && Evolves(w, u, None) && u.processes == w.processes
    requires 0 < base <= |u.history| && Carried(p).None?
    ensures var (v, p') := Ensured(u, base, next); StepKeeps(w, p, v, p')
  {
    hide ReadRefreshState;
    var (v, p') := Ensured(u, base, next);
    assert forall t :: Stored(v, t) <==> Stored(u, t);
    assert forall t :: Loose(v, t) <==> Loose(u, t);
  }

  lemma UpgradeKeeps(w: World, upgraded: Credentials)
    requires RecordOk(w) && |w.history| > 0
    requires upgraded == Record(w).credentials.(generation := upgraded.generation)
    ensures RecordOk(Put(w, upgraded, Record(w).origin)) && Evolves(w, Put(w, upgraded, Record(w).origin), None)
  {
    hide Evolves;
    PutKeeps(w, upgraded, Record(w).origin, None);
  }

  lemma NothingEvolves(w: World)
    ensures Evolves(w, w, None)
  {
  }

  lemma EnsureKeeps(w: World, p: Process, c: Choice)
    requires p.Ensure? && RecordOk(w) && ProcessOk(w, p)
    ensures var (v, p') := EnsureStep(w, p.n, p.base, p.next, c); StepKeeps(w, p, v, p')
  {
    hide RecordOk, Evolves, Ensured;
    NothingEvolves(w);
    if p.base > 0 && w.history[p.base - 1].credentials.generation.Some? {
      EnsuredKeeps(w, w, p, p.base, p.next);
    } else if Swaps(w, p.base) {
      if p.base == 0 {
        PutKeeps(w, DisconnectedMarker(c.generation), 0, None);
        EnsuredKeeps(w, Put(w, DisconnectedMarker(c.generation), 0), p, 1, p.next);
      } else {
        var entry := w.history[p.base - 1];
        var upgraded := entry.credentials.(generation := Some(c.generation));
        UpgradeKeeps(w, upgraded);
        EnsuredKeeps(w, Put(w, upgraded, entry.origin), p, p.base + 1, p.next);
      }
    }
  }

  /** A refresher that wins the swap takes the token out of the record before it sends it. */
  lemma ClaimKeeps(w: World, p: Process, c: Choice)
    requires p.Refresh? && RecordOk(w) && ProcessOk(w, p) && Swaps(w, p.base)
    requires
      && Record(w).credentials.generation.Some? && ReadRefreshState(Record(w).credentials) == Ready
      && Record(w).credentials.tokens.refresh.Some?
    ensures
      var claim := TokenFree(false, InFlight(c.attempt), Record(w).credentials.generation.value);
      var v := Put(w, claim, Record(w).origin);
      var p' := Send(p.base + 1, Record(w).credentials.tokens.refresh.value, c.attempt,
                     Record(w).credentials.generation.value);
      StepKeeps(w, p, v, p')
  {
    PutKeeps(w, TokenFree(false, InFlight(c.attempt), Record(w).credentials.generation.value), Record(w).origin, None);
  }

  lemma RefreshKeeps(w: World, p: Process, c: Choice)
    requires p.Refresh? && RecordOk(w) && ProcessOk(w, p)
    ensures var (v, p') := RefreshStep(w, p.base, c); StepKeeps(w, p, v, p')
  {
    hide RecordOk, Evolves, ReadRefreshState, Put;
    NothingEvolves(w);
    var entry := w.history[p.base - 1];
    if entry.credentials.generation.Some? && ReadRefreshState(entry.credentials) == Ready
       && entry.credentials.tokens.refresh.Some? && Swaps(w, p.base) {
      ClaimKeeps(w, p, c);
    }
  }

  lemma FailClosedKeeps(w: World, p: Process)
    requires p.FailClosed? && RecordOk(w) && ProcessOk(w, p)
    ensures var (v, p') := FailClosedStep(w, p.n, p.base, p.expected); StepKeeps(w, p, v, p')
  {
    var entry := w.history[p.base - 1];
    if entry.credentials.generation.Some? {
      PutKeeps(w, TokenFree(false, Reauthorize, entry.credentials.generation.value), entry.origin, None);
    }
  }

  lemma SendKeeps(w: World, p: Process, c: Choice)
    requires p.Send? && RecordOk(w) && ProcessOk(w, p) && NewTokens(w, c)
    ensures var (v, p') := SendStep(w, p, c); StepKeeps(w, p, v, p')
  {
  }

  lemma StoreKeeps(w: World, p: Process, c: Choice)
    requires p.Store? && RecordOk(w) && ProcessOk(w, p)
    ensures var (v, p') := ProcessStep(w, p, c); StepKeeps(w, p, v, p')
  {
    if Swaps(w, p.claimed) {
      assert Record(w).credentials.refreshField.InFlight?;
      PutKeeps(w, Connected(p.tokens, p.generation), w.history[p.claimed - 1].origin, p.tokens.refresh);
    }
  }

  lemma CallbackKeeps(w: World, p: Process, c: Choice)
    requires p.CallbackCheck? || p.Exchange? || p.ReplaceGet? || p.ReplacePut?
    requires RecordOk(w) && ProcessOk(w, p) && NewTokens(w, c)
    ensures var (v, p') := CallbackStep(w, p, c); StepKeeps(w, p, v, p')
  {
    if p.Exchange? {
      ExchangeKeeps(w, p, c);
    } else if p.ReplacePut? && Swaps(w, p.base) {
      ReplaceKeeps(w, p);
    }
  }

  lemma ExchangeKeeps(w: World, p: Process, c: Choice)
    requires p.Exchange? && RecordOk(w) && ProcessOk(w, p) && NewTokens(w, c)
    ensures var (v, p') := CallbackStep(w, p, c); StepKeeps(w, p, v, p')
  {
  }

  lemma ReplaceKeeps(w: World, p: Process)
    requires p.ReplacePut? && Swaps(w, p.base) && RecordOk(w) && ProcessOk(w, p)
    ensures StepKeeps(w, p, Put(w, Connected(p.tokens, p.generation), p.launched), Stopped)
  {
    hide Evolves;
    PutKeeps(w, Connected(p.tokens, p.generation), p.launched, p.tokens.refresh);
  }

  lemma DisconnectKeeps(w: World, p: Process, c: Choice)
    requires p.DisconnectPut? && RecordOk(w) && ProcessOk(w, p)
    ensures var (v, p') := ProcessStep(w, p, c); StepKeeps(w, p, v, p')
  {
    hide RecordOk, Evolves;
    NothingEvolves(w);
    if Swaps(w, p.base) {
      PutKeeps(w, DisconnectedMarker(c.generation), 0, None);
      BarrierMoves(w, Put(w, DisconnectedMarker(c.generation), 0), |w.history| + 1);
    }
  }

  /** The barrier moves up to a record that holds no tokens and no claim. */
  lemma BarrierMoves(w: World, u: World, barrier: nat)
    requires RecordOk(u) && Evolves(w, u, None) && barrier == |u.history| > 0
    requires !HasTokens(Record(u).credentials.tokens) && !Record(u).credentials.refreshField.InFlight?
    ensures RecordOk(u.(barrier := barrier)) && Evolves(w, u.(barrier := barrier), None)
  {
    assert forall t :: Stored(u.(barrier := barrier), t) <==> Stored(u, t);
    assert forall t :: Loose(u.(barrier := barrier), t) <==> Loose(u, t);
  }

  lemma SeedKeeps(w: World, p: Process, c: Choice)
    requires p.SeedPut? && RecordOk(w) && ProcessOk(w, p)
    ensures var (v, p') := ProcessStep(w, p, c); StepKeeps(w, p, v, p')
  {
    if Swaps(w, 0) {
      PutKeeps(w, Connected(p.config, c.generation), 0, None);
      EnsuredKeeps(w, Put(w, Connected(p.config, c.generation), 0), p, 1, p.next);
    }
  }

  lemma ProcessKeeps(w: World, p: Process, c: Choice)
    requires RecordOk(w) && ProcessOk(w, p) && NewTokens(w, c)
    ensures var (v, p') := ProcessStep(w, p, c); StepKeeps(w, p, v, p')
  {
    hide RecordOk, Loose, Stored, ClaimOk, EnsureStep, RefreshStep, FailClosedStep, SendStep, CallbackStep;
    if p.Ensure? {
      EnsureKeeps(w, p, c);
    } else if p.Refresh? {
      RefreshKeeps(w, p, c);
    } else if p.FailClosed? {
      FailClosedKeeps(w, p);
    } else if p.Send? {
      SendKeeps(w, p, c);
    } else if p.Store? {
      StoreKeeps(w, p, c);
    } else if p.DisconnectPut? {
      DisconnectKeeps(w, p, c);
    } else if p.SeedPut? {
      SeedKeeps(w, p, c);
    } else if p.CallbackCheck? || p.Exchange? || p.ReplaceGet? || p.ReplacePut? {
      CallbackKeeps(w, p, c);
    }
  }

  ghost predicate SameRecord(w: World, v: World) {
    && v.history == w.history && v.sent == w.sent && v.seen == w.seen
    && v.issued == w.issued && v.barrier == w.barrier
  }

  /** The invariant of the record and of one process looks at no other process. */
  lemma RecordIsEnough(w: World, v: World)
    requires SameRecord(w, v)
    ensures RecordOk(w) ==> RecordOk(v)
    ensures forall p :: ProcessOk(w, p) ==> ProcessOk(v, p)
  {
    assert forall t :: Stored(w, t) <==> Stored(v, t);
    forall p | ProcessOk(w, p) ensures ProcessOk(v, p) {
      assert Carried(p).Some? ==> Loose(v, Carried(p).value);
    }
  }

  lemma ActKeeps(w: World, pid: nat, c: Choice)
    requires Inv(w) && pid in w.processes && NewTokens(w, c)
    ensures Inv(Apply(w, Act(pid, c)))
  {
    hide ProcessStep, RecordOk;
    var p := w.processes[pid];
    ProcessKeeps(w, p, c);
    var (v, p') := ProcessStep(w, p, c);
    var w' := Apply(w, Act(pid, c));
    RecordIsEnough(v, w');
    forall q | q in w'.processes ensures ProcessOk(w', w'.processes[q]) {
      if q != pid {
        assert Distinct(w.processes[q], p);
        OthersUnaffected(w, v, Carried(p), w.processes[q]);
      }
      assert ProcessOk(v, w'.processes[q]);
    }
    forall q, r | q in w'.processes && r in w'.processes && q != r
      ensures Distinct(w'.processes[q], w'.processes[r])
    {
      assert Distinct(w.processes[q], w.processes[r]);
      if q == pid || r == pid {
        NewcomerIsDistinct(w, p, v, p', w.processes[if q == pid then r else q]);
      }
    }
  }

  lemma NewcomerIsDistinct(w: World, p: Process, v: World, p': Process, q: Process)
    requires StepKeeps(w, p, v, p') && ProcessOk(w, q) && Distinct(p, q) && Distinct(q, p)
    ensures Distinct(p', q) && Distinct(q, p')
  {
  }

  lemma StepKeepsInv(w: World, step: Step)
    requires Inv(w)
    ensures Inv(Apply(w, step))
  {
    hide RecordOk;
    var w' := Apply(w, step);
    if step.Act? {
      if step.pid in w.processes && NewTokens(w, step.choice) {
        ActKeeps(w, step.pid, step.choice);
      }
    } else {
      RecordIsEnough(w, w');
      forall q | q in w'.processes ensures ProcessOk(w', w'.processes[q]) {
        assert q in w.processes ==> ProcessOk(w, w.processes[q]);
      }
      forall q, r | q in w'.processes && r in w'.processes && q != r
        ensures Distinct(w'.processes[q], w'.processes[r])
      {
        assert q in w.processes && r in w.processes ==> Distinct(w.processes[q], w.processes[r]);
      }
    }
  }

  lemma {:induction false} Reachable(legacy: Option<Credentials>, steps: seq<Step>)
    ensures Inv(Run(Initial(legacy), steps))
    decreases |steps|
  {
    if |steps| > 0 {
      Reachable(legacy, steps[..|steps| - 1]);
      StepKeepsInv(Run(Initial(legacy), steps[..|steps| - 1]), steps[|steps| - 1]);
    }
  }
}
