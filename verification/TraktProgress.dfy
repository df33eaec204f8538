// What the Trakt credential protocol gets done: when a call returns tokens, when exactly each kind of process
// writes, and that an undisturbed refresh, disconnect or callback reaches its end.
module TraktProgress {
  import opened Outcomes
  import opened TraktCredential
  import opened TraktProtocol
  import opened TraktSafety
  import opened TraktTheorems

  /** The process's step is a real one: its call does not fail, upstream hands out no used token. */
  predicate Acts(w: World, pid: nat, c: Choice) {
    pid in w.processes && !c.fails && NewTokens(w, c)
  }

  function After(w: World, pid: nat, c: Choice): World {
    Apply(w, Act(pid, c))
  }

  // ---------------------------------------------------------------- using and claiming tokens

  /** A ready record that a refresh call has read, with a generation. */
  predicate HasRead(w: World, p: Process, entry: Entry) {
    && p.Refresh? && 0 < p.base <= |w.history| && entry == w.history[p.base - 1]
    && entry.credentials.generation.Some? && ReadRefreshState(entry.credentials) == Ready
  }

  /** An access token that has not expired is used: the call returns the tokens of the record it read, and
      nothing is written or sent. */
  lemma AFreshTokenIsUsed(legacy: Option<Credentials>, steps: seq<Step>, w: World, pid: nat, c: Choice, entry: Entry)
    requires w == Run(Initial(legacy), steps) && pid in w.processes
    requires HasRead(w, w.processes[pid], entry) && entry.credentials.tokens.access.Some? && !c.expired
    ensures After(w, pid, c).history == w.history && After(w, pid, c).sent == w.sent
    ensures
      Acts(w, pid, c) ==>
        After(w, pid, c) == w.(processes := w.processes[pid := Returned(entry.credentials.tokens)])
  {
    hide Run;
    ProcessesCanAlwaysAct(legacy, steps, pid);
  }

  /** A refresh call claims the record exactly if it is still the one it read, is ready, has no fresh access
      token and has a refresh token: and then that token leaves the record and is sent next. */
  lemma AClaimIsMadeExactly(legacy: Option<Credentials>, steps: seq<Step>, w: World, pid: nat, c: Choice)
    requires w == Run(Initial(legacy), steps) && Acts(w, pid, c) && w.processes[pid].Refresh?
    ensures
      var p, v := w.processes[pid], After(w, pid, c);
      && 0 < p.base <= |w.history| && v.sent == w.sent
      && var entry := w.history[p.base - 1];
         var claims := && HasRead(w, p, entry) && p.base == |w.history|
                       && (entry.credentials.tokens.access.None? || c.expired)
                       && entry.credentials.tokens.refresh.Some?;
      && (v.history != w.history <==> claims)
      && (claims ==>
            && v.history
               == w.history + [Entry(TokenFree(false, InFlight(c.attempt), entry.credentials.generation.value),
                                     entry.origin)]
            && v.processes[pid] == Send(|w.history| + 1, entry.credentials.tokens.refresh.value, c.attempt,
                                        entry.credentials.generation.value))
  {
    hide Run;
    ProcessesCanAlwaysAct(legacy, steps, pid);
    AppendedIsLonger(w, After(w, pid, c));
  }

  lemma AppendedIsLonger(w: World, v: World)
    ensures |v.history| != |w.history| ==> v.history != w.history
  {
  }

  /** Only the process that claimed a token sends it, once, whatever upstream answers. */
  lemma ASendIsExact(legacy: Option<Credentials>, steps: seq<Step>, w: World, pid: nat, c: Choice)
    requires w == Run(Initial(legacy), steps) && pid in w.processes && NewTokens(w, c)
    ensures
      var p, v := w.processes[pid], After(w, pid, c);
      && v.sent == (if p.Send? then w.sent + multiset{p.token} else w.sent)
      && (p.Send? ==> v.history == w.history)
      && (p.Send? && !c.fails && c.tokens.access.Some? && c.tokens.refresh.Some? ==>
            v.processes[pid] == Store(p.claimed, c.tokens, p.attempt, p.generation))
  {
    hide Run, EnsureStep, RefreshStep, FailClosedStep, CallbackStep, Ensured;
    ProcessesCanAlwaysAct(legacy, steps, pid);
    if !w.processes[pid].Send? {
      OthersSendNothing(w, w.processes[pid], c);
    }
  }

  lemma OthersSendNothing(w: World, p: Process, c: Choice)
    requires Sighted(w, p) && !p.Send?
    ensures ProcessStep(w, p, c).0.sent == w.sent
  {
  }

  /** Whoever ends with tokens returns the record's own: those it read, those it has just stored, or those that
      are stored now. */
  lemma ReturnedTokensAreTheRecords(legacy: Option<Credentials>, steps: seq<Step>, w: World, pid: nat, c: Choice)
    requires w == Run(Initial(legacy), steps) && pid in w.processes && NewTokens(w, c)
    requires !w.processes[pid].Returned? && After(w, pid, c).processes[pid].Returned?
    ensures
      var p, v := w.processes[pid], After(w, pid, c);
      var tokens := v.processes[pid].tokens;
      && (tokens.access.Some? || p.Store?)
      && match p
         case Refresh(base) =>
           0 < base <= |w.history| && tokens == w.history[base - 1].credentials.tokens && v.history == w.history
         case Store(_, _, _, _) =>
           |v.history| > 0 && v.history != w.history && Record(v).credentials.tokens == tokens
         case Confirm(_, _, _) =>
           |w.history| > 0 && Record(w).credentials.tokens == tokens && v.history == w.history
         case _ => false
  {
    hide Run, EnsureStep, FailClosedStep, CallbackStep;
    ProcessesCanAlwaysAct(legacy, steps, pid);
    var p := w.processes[pid];
    if !p.Refresh? && !p.Store? && !p.Confirm? {
      OthersReturnNothing(w, p, c);
    }
  }

  lemma OthersReturnNothing(w: World, p: Process, c: Choice)
    requires Sighted(w, p) && !p.Refresh? && !p.Store? && !p.Confirm? && !p.Returned?
    ensures !ProcessStep(w, p, c).1.Returned?
  {
  }

  // ---------------------------------------------------------------- when the others write

  /** A disconnect stores its marker exactly over the record it read, within its attempts. */
  lemma ADisconnectStoresExactly(legacy: Option<Credentials>, steps: seq<Step>, w: World, pid: nat, c: Choice)
    requires w == Run(Initial(legacy), steps) && Acts(w, pid, c) && w.processes[pid].DisconnectPut?
    ensures
      var p, v := w.processes[pid], After(w, pid, c);
      if p.n < WRITE_ATTEMPTS && p.base == |w.history| then
        && v.history == w.history + [Entry(DisconnectedMarker(c.generation), 0)] && v.barrier == |v.history|
        && ReadRefreshState(Record(v).credentials) == Disconnected
      else v.history == w.history && v.barrier == w.barrier
           && v.processes[pid] == if p.n < WRITE_ATTEMPTS then DisconnectGet(p.n + 1) else Stopped
  {
    hide Run;
    ProcessesCanAlwaysAct(legacy, steps, pid);
  }

  /** A callback stores its tokens exactly over the record its authorization was launched from. */
  lemma ACallbackStoresExactly(legacy: Option<Credentials>, steps: seq<Step>, w: World, pid: nat, c: Choice)
    requires w == Run(Initial(legacy), steps) && Acts(w, pid, c) && w.processes[pid].ReplacePut?
    ensures
      var p, v := w.processes[pid], After(w, pid, c);
      v.history == if p.launched == |w.history|
                   then w.history + [Entry(Connected(p.tokens, p.generation), p.launched)] else w.history
  {
    hide Run;
    Reachable(legacy, steps);
    ProcessesCanAlwaysAct(legacy, steps, pid);
    assert ProcessOk(w, w.processes[pid]);
  }

  /** Credentials that cannot be used are given up exactly if they are still the ones that were read, and are
      in flight under the attempt that is given up or, without one, not ready. */
  lemma AFailClosedStoresExactly(legacy: Option<Credentials>, steps: seq<Step>, w: World, pid: nat, c: Choice)
    requires w == Run(Initial(legacy), steps) && Acts(w, pid, c) && w.processes[pid].FailClosed?
    ensures
      var p, v := w.processes[pid], After(w, pid, c);
      && 0 < p.base <= |w.history|
      && var entry := w.history[p.base - 1];
         var state := ReadRefreshState(entry.credentials);
         var gives := && p.n < WRITE_ATTEMPTS && p.base == |w.history| && entry.credentials.generation.Some?
                      && (if p.expected.Some? then state == Refreshing(p.expected.value)
                          else state == Invalid || state.Refreshing?);
         v.history == if gives
                      then w.history + [Entry(TokenFree(false, Reauthorize, entry.credentials.generation.value),
                                              entry.origin)]
                      else w.history
  {
    hide Run;
    ProcessesCanAlwaysAct(legacy, steps, pid);
  }

  /** Tokens from the configuration are stored exactly where there is no record yet. */
  lemma ASeedIsStoredExactly(legacy: Option<Credentials>, steps: seq<Step>, w: World, pid: nat, c: Choice)
    requires w == Run(Initial(legacy), steps) && Acts(w, pid, c) && w.processes[pid].SeedPut?
    ensures
      var p, v := w.processes[pid], After(w, pid, c);
      v.history == if |w.history| == 0 then [Entry(Connected(p.config, c.generation), 0)] else w.history
  {
    hide Run;
    ProcessesCanAlwaysAct(legacy, steps, pid);
    assert [] + [Entry(Connected(w.processes[pid].config, c.generation), 0)]
           == [Entry(Connected(w.processes[pid].config, c.generation), 0)];
  }

  /** A record without a generation gets one, and nothing else changes; a missing one becomes a disconnected
      record. Both exactly over what was read. */
  lemma AnUpgradeIsStoredExactly(legacy: Option<Credentials>, steps: seq<Step>, w: World, pid: nat, c: Choice)
    requires w == Run(Initial(legacy), steps) && Acts(w, pid, c) && w.processes[pid].Ensure?
    ensures
      var p, v := w.processes[pid], After(w, pid, c);
      && p.base <= |w.history|
      && var lacks := p.base == 0 || w.history[p.base - 1].credentials.generation.None?;
         v.history == if lacks && p.n < WRITE_ATTEMPTS && p.base == |w.history|
                      then w.history + [if p.base == 0 then Entry(DisconnectedMarker(c.generation), 0)
                                        else Entry(Record(w).credentials.(generation := Some(c.generation)),
                                                   Record(w).origin)]
                      else w.history
  {
    hide Run;
    ProcessesCanAlwaysAct(legacy, steps, pid);
  }

  // ---------------------------------------------------------------- undisturbed calls

  lemma ClaimStep(w: World, pid: nat, c: Choice)
    requires Acts(w, pid, c) && w.processes[pid] == Refresh(|w.history|)
    requires |w.history| > 0 && HasRead(w, w.processes[pid], Record(w)) && Record(w).credentials.tokens.refresh.Some?
    requires Record(w).credentials.tokens.access.None? || c.expired
    ensures
      var v, credentials := After(w, pid, c), Record(w).credentials;
      && v.history == w.history + [Entry(TokenFree(false, InFlight(c.attempt), credentials.generation.value),
                                         Record(w).origin)]
      && v.sent == w.sent && v.seen == w.seen
      && pid in v.processes
      && v.processes[pid] == Send(|w.history| + 1, credentials.tokens.refresh.value, c.attempt,
                                  credentials.generation.value)
  {
  }

  lemma SendAnswered(w: World, pid: nat, c: Choice)
    requires Acts(w, pid, c) && w.processes[pid].Send? && 0 < w.processes[pid].claimed <= |w.history|
    requires c.tokens.access.Some? && c.tokens.refresh.Some?
    ensures
      var p, v := w.processes[pid], After(w, pid, c);
      && v.history == w.history && v.sent == w.sent + multiset{p.token}
      && pid in v.processes && v.processes[pid] == Store(p.claimed, c.tokens, p.attempt, p.generation)
  {
  }

  lemma StoreStep(w: World, pid: nat, c: Choice)
    requires Acts(w, pid, c) && w.processes[pid].Store? && 0 < w.processes[pid].claimed == |w.history|
    ensures
      var p, v := w.processes[pid], After(w, pid, c);
      && v.history == w.history + [Entry(Connected(p.tokens, p.generation), Record(w).origin)] && v.sent == w.sent
      && pid in v.processes && v.processes[pid] == Returned(p.tokens)
  {
  }

  /** A refresh call that nobody disturbs, and that upstream answers, stores the new tokens over the spent one
      and returns them. */
  lemma AnUndisturbedRefreshSucceeds(w: World, pid: nat, claim: Choice, answer: Choice, store: Choice)
    requires Acts(w, pid, claim) && w.processes[pid] == Refresh(|w.history|)
    requires |w.history| > 0 && HasRead(w, w.processes[pid], Record(w)) && Record(w).credentials.tokens.refresh.Some?
    requires Record(w).credentials.tokens.access.None? || claim.expired
    requires !answer.fails && NewTokens(w, answer) && answer.tokens.access.Some? && answer.tokens.refresh.Some?
    requires !store.fails && store.tokens == NO_TOKENS
    ensures
      var v := After(After(After(w, pid, claim), pid, answer), pid, store);
      && |v.history| == |w.history| + 2 && v.history[..|w.history|] == w.history
      && Record(v) == Entry(Connected(answer.tokens, Record(w).credentials.generation.value), Record(w).origin)
      && v.processes[pid] == Returned(answer.tokens)
      && v.sent == w.sent + multiset{Record(w).credentials.tokens.refresh.value}
  {
    hide Apply, ReadRefreshState;
    ClaimStep(w, pid, claim);
    var w1 := After(w, pid, claim);
    SendAnswered(w1, pid, answer);
    StoreStep(After(w1, pid, answer), pid, store);
  }

  /** A disconnect that nobody disturbs takes the tokens out of the record. */
  lemma AnUndisturbedDisconnectSucceeds(w: World, pid: nat, c: Choice)
    requires pid !in w.processes && |w.history| > 0 && Record(w).credentials.generation.Some?
    requires !c.fails && NewTokens(w, c)
    ensures
      var v := After(After(After(Apply(w, StartDisconnect(pid)), pid, c), pid, c), pid, c);
      && |v.history| == |w.history| + 1 && v.barrier == |v.history|
      && ReadRefreshState(Record(v).credentials) == Disconnected && !HasTokens(Record(v).credentials.tokens)
  {
    var w1 := After(Apply(w, StartDisconnect(pid)), pid, c);
    assert w1.processes[pid] == Ensure(0, |w.history|, ThenDisconnect);
    var w2 := After(w1, pid, c);
    assert w2.processes[pid] == DisconnectPut(0, |w.history|) && w2.history == w.history;
  }

  lemma CallbackActs(w: World, pid: nat, c: Choice)
    requires Acts(w, pid, c) && w.processes[pid].CallbackCheck? && 0 < w.processes[pid].launched == |w.history|
    requires Record(w).credentials.generation == Some(w.processes[pid].generation)
    ensures
      var p, v := w.processes[pid], After(w, pid, c);
      v == w.(processes := w.processes[pid := Exchange(p.generation, p.launched)])
  {
  }

  lemma ExchangeActs(w: World, pid: nat, c: Choice)
    requires Acts(w, pid, c) && w.processes[pid].Exchange? && c.tokens.access.Some?
    ensures
      var p, v := w.processes[pid], After(w, pid, c);
      && v.history == w.history && pid in v.processes
      && v.processes[pid] == ReplaceGet(p.generation, p.launched, c.tokens)
  {
  }

  lemma ReplaceActs(w: World, pid: nat, c: Choice)
    requires Acts(w, pid, c) && w.processes[pid].ReplaceGet? && 0 < w.processes[pid].launched == |w.history|
    requires Record(w).credentials.generation == Some(w.processes[pid].generation) && c.tokens == NO_TOKENS
    ensures
      var p, v := w.processes[pid], After(After(w, pid, c), pid, c);
      v.history == w.history + [Entry(Connected(p.tokens, p.generation), p.launched)]
  {
    var p, w1 := w.processes[pid], After(w, pid, c);
    assert w1.processes[pid] == ReplacePut(|w.history|, p.generation, p.launched, p.tokens);
    assert w1.history == w.history;
  }

  /** A callback whose authorization was launched from the record as it is stores what upstream answers. */
  lemma AnUndisturbedCallbackSucceeds(
    w: World, pid: nat, generation: GenerationId, check: Choice, answer: Choice, put: Choice)
    requires pid !in w.processes && |w.history| > 0 && (generation, |w.history|) in w.issued
    requires Record(w).credentials.generation == Some(generation)
    requires !check.fails && !answer.fails && !put.fails && answer.tokens.access.Some?
    requires NewTokens(w, answer) && check.tokens == NO_TOKENS && put.tokens == NO_TOKENS
    ensures
      var checked := After(Apply(w, StartCallback(pid, generation, |w.history|)), pid, check);
      var v := After(After(After(checked, pid, answer), pid, put), pid, put);
      v.history == w.history + [Entry(Connected(answer.tokens, generation), |w.history|)]
  {
    hide ProcessStep;
    var w1 := Apply(w, StartCallback(pid, generation, |w.history|));
    assert w1 == w.(processes := w.processes[pid := CallbackCheck(generation, |w.history|)]);
    CallbackActs(w1, pid, check);
    var w2 := After(w1, pid, check);
    ExchangeActs(w2, pid, answer);
    ReplaceActs(After(w2, pid, answer), pid, put);
  }

  // ---------------------------------------------------------------- lost races

  /** After its put lost the race a refresh call returns what the winner stored if that is fresh and of the same
      generation, and gives up its own attempt otherwise. */
  lemma AConfirmIsExact(legacy: Option<Credentials>, steps: seq<Step>, w: World, pid: nat, c: Choice)
    requires w == Run(Initial(legacy), steps) && Acts(w, pid, c) && w.processes[pid].Confirm?
    ensures
      var p, v := w.processes[pid], After(w, pid, c);
      && |w.history| > 0 && v.history == w.history
      && var current := Record(w).credentials;
         v.processes[pid] == if && current.generation == Some(p.generation) && ReadRefreshState(current) == Ready
                                && current.tokens.access.Some? && !c.expired
                             then Returned(current.tokens) else FailClosed(0, |w.history|, Some(p.attempt))
  {
    hide Run;
    ProcessesCanAlwaysAct(legacy, steps, pid);
  }

  /** A call that read a record somebody has replaced since reads again, within its attempts, and goes on with the
      record as it is then. */
  lemma ALostRaceIsRetried(legacy: Option<Credentials>, steps: seq<Step>, w: World, pid: nat, c: Choice)
    requires w == Run(Initial(legacy), steps) && Acts(w, pid, c) && |w.history| > 0
    ensures
      var p, v := w.processes[pid], After(w, pid, c);
      match p
      case Refresh(base) =>
        && 0 < base <= |w.history|
        && var entry := w.history[base - 1];
           var claims := && HasRead(w, p, entry) && (entry.credentials.tokens.access.None? || c.expired)
                         && entry.credentials.tokens.refresh.Some?;
           (claims && base != |w.history| ==> v.processes[pid] == Poll)
      case Poll => v.processes[pid] == Refresh(|w.history|)
      case Store(claimed, _, attempt, generation) =>
        claimed != |w.history| ==> v.processes[pid] == Confirm(claimed, attempt, generation)
      case SeedPut(_, next) => v.processes[pid] == SeedRaced(next)
      case SeedRaced(next) => v.processes[pid] == Ensure(0, |w.history|, next)
      case SeedGet(_, next) => v.processes[pid] == Ensure(0, |w.history|, next)
      case EnsureGet(n, next) => v.processes[pid] == Ensure(n, |w.history|, next)
      case DisconnectGet(n) => v.processes[pid] == DisconnectPut(n, |w.history|)
      case FailReread(n, expected) => v.processes[pid] == FailClosed(n, |w.history|, expected)
      case _ => true
  {
    hide Run, EnsureStep, FailClosedStep, CallbackStep, ConfirmStep;
    ProcessesCanAlwaysAct(legacy, steps, pid);
  }

  /** A refresh call waits for an attempt in flight, gives it up when its time is over, gives up credentials that
      make no sense, and fails on credentials that need the user. */
  lemma AWaiterIsExact(legacy: Option<Credentials>, steps: seq<Step>, w: World, pid: nat, c: Choice)
    requires w == Run(Initial(legacy), steps) && Acts(w, pid, c) && w.processes[pid].Refresh?
    ensures
      var p, v := w.processes[pid], After(w, pid, c);
      && 0 < p.base <= |w.history|
      && var credentials := w.history[p.base - 1].credentials;
         credentials.generation.Some? ==>
           match ReadRefreshState(credentials)
           case Refreshing(attempt) =>
             v.processes[pid] == if c.timedOut then FailClosed(0, p.base, Some(attempt)) else Poll
           case Invalid => v.processes[pid] == FailClosed(0, p.base, None)
           case Ready => true
           case _ => v == w.(processes := w.processes[pid := Stopped])
  {
    hide Run;
    ProcessesCanAlwaysAct(legacy, steps, pid);
  }

  /** With a generation in the record a call goes on with what it was made for: it refreshes, disconnects, or hands
      out an OAuth state that is bound to that generation and revision. */
  lemma AnEnsuredCallGoesOn(legacy: Option<Credentials>, steps: seq<Step>, w: World, pid: nat, c: Choice)
    requires w == Run(Initial(legacy), steps) && Acts(w, pid, c) && w.processes[pid].Ensure?
    requires
      var base := w.processes[pid].base;
      0 < base <= |w.history| && w.history[base - 1].credentials.generation.Some?
    ensures
      var p, v := w.processes[pid], After(w, pid, c);
      match p.next
      case ThenRefresh => v == w.(processes := w.processes[pid := Refresh(p.base)])
      case ThenDisconnect => v == w.(processes := w.processes[pid := DisconnectPut(0, p.base)])
      case ThenLaunch =>
        v == w.(issued := w.issued + {(w.history[p.base - 1].credentials.generation.value, p.base)},
                processes := w.processes[pid := Stopped])
      case ThenStop => v == w.(processes := w.processes[pid := Stopped])
  {
    hide Run;
    ProcessesCanAlwaysAct(legacy, steps, pid);
  }

  /** Without a record the tokens of the configuration are put, and without any there is nothing to do. */
  lemma ASeedIsReadExactly(w: World, pid: nat, c: Choice)
    requires Acts(w, pid, c) && w.processes[pid].SeedGet?
    ensures
      var p, v := w.processes[pid], After(w, pid, c);
      v == w.(processes := w.processes[pid := if |w.history| > 0 then Ensure(0, |w.history|, p.next)
                                              else if HasTokens(p.config) then SeedPut(p.config, p.next) else Stopped])
  {
  }

  /** A callback goes on exactly while the record is the one its authorization was launched from. */
  lemma ACallbackIsFenced(w: World, pid: nat, c: Choice)
    requires Acts(w, pid, c) && (w.processes[pid].CallbackCheck? || w.processes[pid].ReplaceGet?)
    ensures
      var p, v := w.processes[pid], After(w, pid, c);
      var same := 0 < |w.history| == p.launched && Record(w).credentials.generation == Some(p.generation);
      v == w.(processes := w.processes[pid :=
                if !same then Stopped
                else if p.CallbackCheck? then Exchange(p.generation, p.launched)
                else ReplacePut(p.launched, p.generation, p.launched, p.tokens)])
  {
  }
}
