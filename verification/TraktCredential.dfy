// The stored Trakt credential and the pure functions that read and build it.
module TraktCredential {
  import opened Outcomes

  type Token = nat
  type GenerationId = nat
  type AttemptId = nat

  /** An empty token string is None. */
  datatype Tokens = Tokens(access: Option<Token>, refresh: Option<Token>)

  const NO_TOKENS := Tokens(None, None)

  /** The refresh_state field: absent, one of its two valid shapes, or anything else. */
  datatype RefreshField = Absent | Reauthorize | InFlight(attempt: AttemptId) | Malformed

  /** `generation` is None when the field is missing or malformed; `legacyLock` is the
      presence of a refresh_lock field. */
  datatype Credentials = Credentials(
    tokens: Tokens,
    generation: Option<GenerationId>,
    disconnected: bool,
    legacyLock: bool,
    refreshField: RefreshField)

  datatype RefreshStatus =
    | Ready
    | Refreshing(attemptId: AttemptId)
    | ReauthorizationRequired
    | Disconnected
    | Invalid

  predicate HasTokens(t: Tokens) {
    t.access.Some? || t.refresh.Some?
  }

  /** readTraktRefreshState. */
  function ReadRefreshState(c: Credentials): RefreshStatus {
    if c.legacyLock then Invalid
    else if c.disconnected then
      if HasTokens(c.tokens) || c.generation.None? then Invalid else Disconnected
    else
      match c.refreshField
      case Absent => Ready
      case Reauthorize => ReauthorizationRequired
      case InFlight(attempt) => Refreshing(attempt)
      case Malformed => Invalid
  }

  /** tokenFreeTraktCredential. */
  function TokenFree(disconnected: bool, field: RefreshField, generation: GenerationId): Credentials {
    Credentials(NO_TOKENS, Some(generation), disconnected, false, field)
  }

  /** The record a disconnect stores; its refresh_state also says "disconnected". */
  function DisconnectedMarker(generation: GenerationId): Credentials {
    TokenFree(true, Malformed, generation)
  }

  /** traktCredential. */
  function Connected(tokens: Tokens, generation: GenerationId): Credentials {
    Credentials(tokens, Some(generation), false, false, Absent)
  }

  /** The three token-free records read back as what they were written for, and a connected
      record as ready. */
  lemma BuiltCredentialsReadBack(tokens: Tokens, generation: GenerationId, attempt: AttemptId)
    ensures ReadRefreshState(DisconnectedMarker(generation)) == Disconnected
    ensures ReadRefreshState(TokenFree(false, InFlight(attempt), generation)) == Refreshing(attempt)
    ensures ReadRefreshState(TokenFree(false, Reauthorize, generation)) == ReauthorizationRequired
    ensures ReadRefreshState(Connected(tokens, generation)) == Ready
  {
  }
}
