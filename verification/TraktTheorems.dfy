// What the Trakt credential protocol promises, for every run.
module TraktTheorems {
  import opened Outcomes
  import opened TraktCredential
  import opened TraktProtocol
  import opened TraktSafety

  /** Single use: no refresh token is ever sent upstream twice. */
  lemma RefreshTokensAreSentAtMostOnce(legacy: Option<Credentials>, steps: seq<Step>, t: Token)
    ensures Run(Initial(legacy), steps).sent[t] <= 1
  {
    Reachable(legacy, steps);
    var w := Run(Initial(legacy), steps);
    assert t in w.sent ==> w.sent[t] == 1;
  }

  /** A token that has been sent is gone from the record for good. */
  lemma SentTokensAreNotStored(legacy: Option<Credentials>, steps: seq<Step>, t: Token)
    requires t in Run(Initial(legacy), steps).sent
    ensures !Stored(Run(Initial(legacy), steps), t)
  {
    Reachable(legacy, steps);
  }

  /** The disconnect barrier: tokens in the record always descend from an authorization launched at
      the revision the last disconnect stored, or at a later one. */
  lemma TokensDescendFromTheLastDisconnect(legacy: Option<Credentials>, steps: seq<Step>)
    requires
      var w := Run(Initial(legacy), steps);
      |w.history| > 0 && HasTokens(Record(w).credentials.tokens)
    ensures
      var w := Run(Initial(legacy), steps);
      Record(w).origin >= w.barrier
  {
    Reachable(legacy, steps);
  }

  // ---------------------------------------------------------------- who writes what

  /** Every write is a swap on the current revision; this is what each process may write there. */
  ghost predicate Wrote(w: World, p: Process, p': Process, e: Entry) {
    match p
    case SeedPut(_, _) => |w.history| == 0
    case Ensure(_, base, _) =>
      base == |w.history| && (base == 0 ==> e.credentials.tokens == NO_TOKENS)
      && (base > 0 ==> e == Entry(Record(w).credentials.(generation := e.credentials.generation), Record(w).origin)
                       && Record(w).credentials.generation.None?)
    case Refresh(base) =>
      && 0 < base == |w.history| && ReadRefreshState(Record(w).credentials) == Ready
      && e.credentials.tokens == NO_TOKENS && e.origin == Record(w).origin
      && p'.Send? && p'.claimed == base + 1 && Some(p'.token) == Record(w).credentials.tokens.refresh
    case FailClosed(_, base, expected) =>
      && 0 < base == |w.history| && e.credentials.tokens == NO_TOKENS
      && ReadRefreshState(Record(w).credentials) != Disconnected
      && ReadRefreshState(Record(w).credentials) != Ready
    case Store(claimed, tokens, attempt, generation) =>
      && 0 < claimed == |w.history| && Record(w).credentials == TokenFree(false, InFlight(attempt), generation)
      && e == Entry(Connected(tokens, generation), Record(w).origin)
    case ReplacePut(base, generation, launched, tokens) =>
      launched == base == |w.history| && e == Entry(Connected(tokens, generation), launched)
    case DisconnectPut(_, base) =>
      base == |w.history| && ReadRefreshState(e.credentials) == Disconnected
    case _ => false
  }

  lemma EveryWriteIsASwap(w: World, p: Process, c: Choice)
    requires ProcessOk(w, p)
    ensures
      var (v, p') := ProcessStep(w, p, c);
      v.history == w.history
      || (v.history == w.history + [v.history[|v.history| - 1]] && Wrote(w, p, p', v.history[|v.history| - 1]))
  {
    if p.Refresh? {
      RefreshWritesAClaim(w, p, c);
    } else if p.FailClosed? {
      FailClosedSparesReady(w, p);
    } else if p.Ensure? {
      assert p.base == |w.history| > 0 ==> w.history[p.base - 1] == Record(w);
    } else if p.Store? {
      assert p.claimed == |w.history| ==> w.history[p.claimed - 1] == Record(w);
    }
  }

  lemma RefreshWritesAClaim(w: World, p: Process, c: Choice)
    requires p.Refresh? && ProcessOk(w, p)
    ensures
      var (v, p') := RefreshStep(w, p.base, c);
      v.history == w.history
      || (v.history == w.history + [v.history[|v.history| - 1]] && Wrote(w, p, p', v.history[|v.history| - 1]))
  {
    assert p.base == |w.history| ==> w.history[p.base - 1] == Record(w);
  }

  lemma FailClosedSparesReady(w: World, p: Process)
    requires p.FailClosed? && ProcessOk(w, p)
    ensures
      var (v, p') := FailClosedStep(w, p.n, p.base, p.expected);
      v.history == w.history
      || (v.history == w.history + [v.history[|v.history| - 1]] && Wrote(w, p, p', v.history[|v.history| - 1]))
  {
    assert p.base == |w.history| ==> w.history[p.base - 1] == Record(w);
  }

  /** In every reachable world, a step that writes is a process swapping the current revision. */
  lemma StepWrites(w: World, step: Step)
    requires Inv(w) && Apply(w, step).history != w.history
    ensures
      var w' := Apply(w, step);
      && step.Act? && step.pid in w.processes && step.pid in w'.processes
      && |w'.history| > 0 && w'.history == w.history + [Record(w')]
      && ProcessOk(w, w.processes[step.pid])
      && Wrote(w, w.processes[step.pid], w'.processes[step.pid], Record(w'))
  {
    assert step.Act?;
    EveryWriteIsASwap(w, w.processes[step.pid], step.choice);
  }

  // ---------------------------------------------------------------- the barrier, step by step

  /** Only an OAuth callback launched from the disconnected revision itself ends a disconnect:
      no refresh, seed, upgrade or fail-closed write does. */
  lemma OnlyACallbackEndsADisconnect(legacy: Option<Credentials>, steps: seq<Step>, w: World, step: Step)
    requires w == Run(Initial(legacy), steps)
    requires |w.history| > 0 && ReadRefreshState(Record(w).credentials) == Disconnected
    requires |Apply(w, step).history| > 0 && ReadRefreshState(Record(Apply(w, step)).credentials) != Disconnected
    ensures step.Act? && step.pid in w.processes
    ensures w.processes[step.pid].ReplacePut? && w.processes[step.pid].launched == |w.history|
  {
    hide Run, RecordOk;
    Reachable(legacy, steps);
    StepWrites(w, step);
  }

  /** A refresher stores what upstream returned only over its own claim: anything written in
      between, a disconnect above all, makes its write fail. */
  lemma ARefreshIsStoredOnlyOverItsClaim(
    legacy: Option<Credentials>, steps: seq<Step>, w: World, pid: nat, c: Choice)
    requires w == Run(Initial(legacy), steps)
    requires pid in w.processes && w.processes[pid].Store?
    requires Apply(w, Act(pid, c)).history != w.history
    ensures 0 < w.processes[pid].claimed == |w.history| && w.barrier < |w.history|
    ensures Record(w).credentials
            == TokenFree(false, InFlight(w.processes[pid].attempt), w.processes[pid].generation)
    ensures Apply(w, Act(pid, c)).history
            == w.history + [Entry(Connected(w.processes[pid].tokens, w.processes[pid].generation), Record(w).origin)]
  {
    hide Run, ProcessStep, RecordOk, Sighted, Loose;
    Reachable(legacy, steps);
    BarrierIsAMarker(legacy, steps);
    StepWrites(w, Act(pid, c));
  }

  ghost predicate BarrierMarked(w: World) {
    w.barrier > 0 ==>
      w.barrier <= |w.history| && ReadRefreshState(w.history[w.barrier - 1].credentials) == Disconnected
  }

  /** The revision of the last disconnect holds its marker. */
  lemma {:induction false} BarrierIsAMarker(legacy: Option<Credentials>, steps: seq<Step>)
    ensures BarrierMarked(Run(Initial(legacy), steps))
    decreases |steps|
  {
    hide Apply, Inv, Wrote, ProcessOk, ReadRefreshState;
    if |steps| > 0 {
      var front, last := steps[..|steps| - 1], steps[|steps| - 1];
      BarrierIsAMarker(legacy, front);
      Reachable(legacy, front);
      var w := Run(Initial(legacy), front);
      if Apply(w, last).history != w.history {
        StepWrites(w, last);
      }
      BarrierMovesToTheEnd(w, last);
    }
  }

  lemma BarrierMovesToTheEnd(w: World, step: Step)
    ensures
      var w' := Apply(w, step);
      w'.barrier == w.barrier
      || (w'.barrier == |w'.history| == |w.history| + 1
          && ReadRefreshState(w'.history[|w.history|].credentials) == Disconnected)
  {
  }

  /** The three ways a ready token leaves the record: the refresher that takes it will send it,
      a disconnect drops it, or a callback fenced to that very revision replaces it. */
  ghost predicate TakesToken(w: World, p: Process, p': Process, t: Token) {
    || (p.Refresh? && p.base == |w.history| && p'.Send? && p'.token == t && p'.claimed == |w.history| + 1)
    || (p.DisconnectPut? && p.base == |w.history|)
    || (p.ReplacePut? && p.launched == |w.history|)
  }

  lemma HowAReadyTokenLeaves(legacy: Option<Credentials>, steps: seq<Step>, w: World, step: Step, t: Token)
    requires w == Run(Initial(legacy), steps)
    requires Stored(w, t) && ReadRefreshState(Record(w).credentials) == Ready
    requires !Stored(Apply(w, step), t)
    ensures step.Act? && step.pid in w.processes && step.pid in Apply(w, step).processes
    ensures TakesToken(w, w.processes[step.pid], Apply(w, step).processes[step.pid], t)
    ensures w.processes[step.pid].Refresh? ==> step.choice.expired || Record(w).credentials.tokens.access.None?
  {
    hide RecordOk, ReadRefreshState, Evolves, Run, ProcessStep, Loose;
    Reachable(legacy, steps);
    var w' := Apply(w, step);
    assert w'.history != w.history;
    StepWrites(w, step);
    assert Record(w').credentials.tokens.refresh != Some(t);
    WhoDropsAToken(w, w.processes[step.pid], w'.processes[step.pid], Record(w'), t);
    if w.processes[step.pid].Refresh? && !step.choice.expired && Record(w).credentials.tokens.access.Some? {
      FreshTokensAreNotClaimed(w, w.processes[step.pid], step.choice);
    }
  }

  lemma FreshTokensAreNotClaimed(w: World, p: Process, c: Choice)
    requires Sighted(w, p) && p.Refresh? && p.base == |w.history| > 0
    requires ReadRefreshState(Record(w).credentials) == Ready && Record(w).credentials.tokens.access.Some? && !c.expired
    ensures ProcessStep(w, p, c).0 == w
  {
  }

  lemma WhoDropsAToken(w: World, p: Process, p': Process, e: Entry, t: Token)
    requires ProcessOk(w, p) && Wrote(w, p, p', e)
    requires Stored(w, t) && ReadRefreshState(Record(w).credentials) == Ready
    requires e.credentials.tokens.refresh != Some(t)
    ensures TakesToken(w, p, p', t)
  {
  }

  /** No enabled process is ever held back by the bookkeeping of this model. */
  lemma ProcessesCanAlwaysAct(legacy: Option<Credentials>, steps: seq<Step>, pid: nat)
    requires pid in Run(Initial(legacy), steps).processes
    ensures Sighted(Run(Initial(legacy), steps), Run(Initial(legacy), steps).processes[pid])
  {
    Reachable(legacy, steps);
    var w := Run(Initial(legacy), steps);
    assert ProcessOk(w, w.processes[pid]);
  }
}
