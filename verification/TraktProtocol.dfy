// The Trakt credential protocol of one profile: every flow of index.js that reads or writes the
// record, one repository or upstream call per step, in any interleaving and with crashes.
module TraktProtocol {
  import opened Outcomes
  import opened TraktCredential

  const WRITE_ATTEMPTS: nat := 8

  /** One revision of the record. `origin` is history: the revision from which the authorization
      that produced these tokens, or their ancestors, was launched (0 for seeded and legacy ones). */
  datatype Entry = Entry(credentials: Credentials, origin: nat)

  /** What ensureTraktCredentialGeneration was called for. */
  datatype Then =
    | ThenRefresh
    | ThenLaunch
    | ThenDisconnect
    | ThenStop

  /** Program points; a call that gives its caller tokens ends in Returned, any other in Stopped. */
  datatype Process =
    | SeedGet(config: Tokens, next: Then)
    | SeedPut(config: Tokens, next: Then)
    | SeedRaced(next: Then)
    | EnsureGet(n: nat, next: Then)
    | Ensure(n: nat, base: nat, next: Then)
    | Refresh(base: nat)
    | Poll
    | Send(claimed: nat, token: Token, attempt: AttemptId, generation: GenerationId)
    | Store(claimed: nat, tokens: Tokens, attempt: AttemptId, generation: GenerationId)
    | Confirm(claimed: nat, attempt: AttemptId, generation: GenerationId)
    | FailClosed(n: nat, base: nat, expected: Option<AttemptId>)
    | FailReread(n: nat, expected: Option<AttemptId>)
    | DisconnectPut(n: nat, base: nat)
    | DisconnectGet(n: nat)
    | CallbackCheck(generation: GenerationId, launched: nat)
    | Exchange(generation: GenerationId, launched: nat)
    | ReplaceGet(generation: GenerationId, launched: nat, tokens: Tokens)
    | ReplacePut(base: nat, generation: GenerationId, launched: nat, tokens: Tokens)
    | Returned(tokens: Tokens)
    | Stopped

  /** `history[r - 1]` is revision r of the record; the record is the last one. `sent` counts the
      refresh tokens sent upstream, `issued` the OAuth states handed out, `seen` every refresh token
      stored, returned or sent so far, and `barrier` is the revision of the last disconnect. */
  datatype World = World(
    history: seq<Entry>,
    sent: multiset<Token>,
    seen: set<Token>,
    issued: set<(GenerationId, nat)>,
    barrier: nat,
    processes: map<nat, Process>)

  /** Free choices of one step: a failing call, the clock, random ids, what upstream returns. */
  datatype Choice = Choice(
    fails: bool, expired: bool, timedOut: bool,
    attempt: AttemptId, generation: GenerationId, tokens: Tokens)

  datatype Step =
    | StartRefresh(pid: nat, config: Tokens)
    | StartSeed(pid: nat, config: Tokens)
    | StartLaunch(pid: nat)
    | StartDisconnect(pid: nat)
    | StartCallback(pid: nat, generation: GenerationId, launched: nat)
    | Act(pid: nat, choice: Choice)
    | Crash(pid: nat)

  function Record(w: World): Entry
    requires |w.history| > 0
  {
    w.history[|w.history| - 1]
  }

  /** repository.put(expectedRevision): a compare-and-swap on the revision. */
  predicate Swaps(w: World, base: nat) {
    base == |w.history|
  }

  function Put(w: World, credentials: Credentials, origin: nat): World {
    w.(history := w.history + [Entry(credentials, origin)],
       seen := w.seen + Of(credentials.tokens.refresh))
  }

  function Of(token: Option<Token>): set<Token> {
    match token
    case None => {}
    case Some(t) => {t}
  }

  /** Continues after ensureTraktCredentialGeneration returned the record at revision `base`. */
  function Ensured(w: World, base: nat, next: Then): (World, Process)
    requires 0 < base <= |w.history|
  {
    match next
    case ThenRefresh => (w, Refresh(base))
    case ThenDisconnect => (w, DisconnectPut(0, base))
    case ThenStop => (w, Stopped)
    case ThenLaunch =>
      var generation := w.history[base - 1].credentials.generation;
      if generation.None? then (w, Stopped)
      else (w.(issued := w.issued + {(generation.value, base)}), Stopped)
  }

  /** One round of ensureTraktCredentialGeneration on the record read at revision `base` (0: none). */
  function EnsureStep(w: World, n: nat, base: nat, next: Then, c: Choice): (World, Process)
    requires base <= |w.history|
  {
    if base > 0 && w.history[base - 1].credentials.generation.Some? then Ensured(w, base, next)
    else if n >= WRITE_ATTEMPTS then (w, Stopped)
    else if !Swaps(w, base) then (w, EnsureGet(n + 1, next))
    else if base == 0 then
      Ensured(Put(w, DisconnectedMarker(c.generation), 0), 1, next)
    else
      var prior := w.history[base - 1];
      Ensured(Put(w, prior.credentials.(generation := Some(c.generation)), prior.origin), base + 1, next)
  }

  /** One round of failClosedTraktCredential; every way out of its caller is an error. */
  function FailClosedStep(w: World, n: nat, base: nat, expected: Option<AttemptId>): (World, Process)
    requires 0 < base <= |w.history|
  {
    var entry := w.history[base - 1];
    var state := ReadRefreshState(entry.credentials);
    if n >= WRITE_ATTEMPTS || entry.credentials.generation.None? then (w, Stopped)
    else if state == Disconnected || state == ReauthorizationRequired then (w, Stopped)
    else if expected.Some? && state != Refreshing(expected.value) then (w, Stopped)
    else if expected.None? && state == Ready then (w, Stopped)
    else if !Swaps(w, base) then (w, FailReread(n + 1, expected))
    else
      (Put(w, TokenFree(false, Reauthorize, entry.credentials.generation.value), entry.origin), Stopped)
  }

  /** One round of the loop of getConfiguredTraktToken on the record read at revision `base`. */
  function RefreshStep(w: World, base: nat, c: Choice): (World, Process)
    requires 0 < base <= |w.history|
  {
    var entry := w.history[base - 1];
    if entry.credentials.generation.None? then (w, Stopped) else
    match ReadRefreshState(entry.credentials)
    case Disconnected => (w, Stopped)
    case ReauthorizationRequired => (w, Stopped)
    case Invalid => (w, FailClosed(0, base, None))
    case Refreshing(attempt) =>
      (w, if c.timedOut then FailClosed(0, base, Some(attempt)) else Poll)
    case Ready =>
      var tokens := entry.credentials.tokens;
      var isFresh := tokens.access.Some? && !c.expired;
      if isFresh then (w, Returned(tokens))
      else if tokens.refresh.None? then (w, Stopped)
      else if !Swaps(w, base) then (w, Poll)
      else
        var generation := entry.credentials.generation.value;
        (Put(w, TokenFree(false, InFlight(c.attempt), generation), entry.origin),
         Send(base + 1, tokens.refresh.value, c.attempt, generation))
  }

  /** refreshTraktToken: the token goes upstream whether or not an answer comes back. */
  function SendStep(w: World, p: Process, c: Choice): (World, Process)
    requires p.Send?
  {
    var sent := w.(sent := w.sent + multiset{p.token});
    if c.fails || c.tokens.refresh.None? || c.tokens.access.None? then
      (sent, FailClosed(0, p.claimed, Some(p.attempt)))
    else
      (sent.(seen := sent.seen + Of(c.tokens.refresh)), Store(p.claimed, c.tokens, p.attempt, p.generation))
  }

  function ConfirmStep(w: World, p: Process, c: Choice): (World, Process)
    requires p.Confirm? && 0 < p.claimed <= |w.history|
  {
    if c.fails || |w.history| == 0 then (w, FailClosed(0, p.claimed, Some(p.attempt)))
    else
      var current := Record(w).credentials;
      if current.generation == Some(p.generation) && ReadRefreshState(current) == Ready
         && current.tokens.access.Some? && !c.expired then (w, Returned(current.tokens))
      else (w, FailClosed(0, |w.history|, Some(p.attempt)))
  }

  function CallbackStep(w: World, p: Process, c: Choice): (World, Process)
    requires p.CallbackCheck? || p.Exchange? || p.ReplaceGet? || p.ReplacePut?
  {
    match p
    case CallbackCheck(generation, launched) =>
      if 0 < |w.history| == launched && Record(w).credentials.generation == Some(generation) then
        (w, Exchange(generation, launched))
      else (w, Stopped)
    case Exchange(generation, launched) =>
      if c.tokens.access.None? then (w, Stopped)
      else (w.(seen := w.seen + Of(c.tokens.refresh)), ReplaceGet(generation, launched, c.tokens))
    case ReplaceGet(generation, launched, tokens) =>
      if 0 < |w.history| == launched && Record(w).credentials.generation == Some(generation) then
        (w, ReplacePut(|w.history|, generation, launched, tokens))
      else (w, Stopped)
    case ReplacePut(base, generation, launched, tokens) =>
      if Swaps(w, base) then (Put(w, Connected(tokens, generation), launched), Stopped)
      else (w, Stopped)
  }

  /** Revisions a process has read were in the history when it read them. */
  predicate Sighted(w: World, p: Process) {
    match p
    case Ensure(_, base, _) => base <= |w.history|
    case Refresh(base) => 0 < base <= |w.history|
    case FailClosed(_, base, _) => 0 < base <= |w.history|
    case Send(claimed, _, _, _) => 0 < claimed <= |w.history|
    case Store(claimed, _, _, _) => 0 < claimed <= |w.history|
    case Confirm(claimed, _, _) => 0 < claimed <= |w.history|
    case _ => true
  }

  function ProcessStep(w: World, p: Process, c: Choice): (World, Process)
    requires Sighted(w, p)
  {
    if c.fails && !p.Send? && !p.Store? && !p.Confirm? && !p.Returned? then (w, Stopped) else
    match p
    case SeedGet(config, next) =>
      if |w.history| > 0 then (w, Ensure(0, |w.history|, next))
      else (w, if HasTokens(config) then SeedPut(config, next) else Stopped)
    case SeedPut(config, next) =>
      if Swaps(w, 0) then Ensured(Put(w, Connected(config, c.generation), 0), 1, next)
      else (w, SeedRaced(next))
    case SeedRaced(next) => (w, if |w.history| > 0 then Ensure(0, |w.history|, next) else Stopped)
    case EnsureGet(n, next) => (w, Ensure(n, |w.history|, next))
    case Ensure(n, base, next) => EnsureStep(w, n, base, next, c)
    case Refresh(base) => RefreshStep(w, base, c)
    case Poll => (w, if |w.history| > 0 then Refresh(|w.history|) else Stopped)
    case Send(_, _, _, _) => SendStep(w, p, c)
    case Store(claimed, tokens, attempt, generation) =>
      if !c.fails && Swaps(w, claimed) then
        (Put(w, Connected(tokens, generation), w.history[claimed - 1].origin), Returned(tokens))
      else (w, Confirm(claimed, attempt, generation))
    case Confirm(_, _, _) => ConfirmStep(w, p, c)
    case FailClosed(n, base, expected) => FailClosedStep(w, n, base, expected)
    case FailReread(n, expected) =>
      (w, if |w.history| > 0 then FailClosed(n, |w.history|, expected) else Stopped)
    case DisconnectPut(n, base) =>
      if n >= WRITE_ATTEMPTS then (w, Stopped)
      else if Swaps(w, base) then
        (Put(w, DisconnectedMarker(c.generation), 0).(barrier := |w.history| + 1), Stopped)
      else (w, DisconnectGet(n + 1))
    case DisconnectGet(n) =>
      (w, if |w.history| > 0 then DisconnectPut(n, |w.history|) else Ensure(0, 0, ThenDisconnect))
    case Returned(_) => (w, p)
    case Stopped => (w, Stopped)
    case _ => CallbackStep(w, p, c)
  }

  /** Upstream never hands out a refresh token it, or anyone, has used before. */
  predicate NewTokens(w: World, c: Choice) {
    c.tokens.refresh.Some? ==> c.tokens.refresh.value !in w.seen
  }

  function Spawn(w: World, pid: nat, p: Process): World {
    if pid in w.processes then w else w.(processes := w.processes[pid := p])
  }

  function Apply(w: World, step: Step): World {
    match step
    case StartRefresh(pid, config) => Spawn(w, pid, SeedGet(config, ThenRefresh))
    case StartSeed(pid, config) => Spawn(w, pid, SeedGet(config, ThenStop))
    case StartLaunch(pid) => Spawn(w, pid, EnsureGet(0, ThenLaunch))
    case StartDisconnect(pid) => Spawn(w, pid, EnsureGet(0, ThenDisconnect))
    case StartCallback(pid, generation, launched) =>
      if (generation, launched) in w.issued then Spawn(w, pid, CallbackCheck(generation, launched)) else w
    case Act(pid, c) =>
      if pid !in w.processes || !Sighted(w, w.processes[pid]) || !NewTokens(w, c) then w
      else
        var (w', p') := ProcessStep(w, w.processes[pid], c);
        w'.(processes := w.processes[pid := p'])
    case Crash(pid) => w.(processes := w.processes - {pid})
  }

  function Run(w: World, steps: seq<Step>): World
    decreases |steps|
  {
    if |steps| == 0 then w else Apply(Run(w, steps[..|steps| - 1]), steps[|steps| - 1])
  }

  /** No record yet, or a record left by an earlier version. */
  function Initial(legacy: Option<Credentials>): World {
    match legacy
    case None => World([], multiset{}, {}, {}, 0, map[])
    case Some(c) => World([Entry(c, 0)], multiset{}, Of(c.tokens.refresh), {}, 0, map[])
  }
}
