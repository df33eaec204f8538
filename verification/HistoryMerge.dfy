// How a playback event is combined with the history row it finds: identity binding, completion,
// progress and time.
module HistoryMerge {
  import opened Outcomes

  const MAX_DATE_MS: nat := 8_640_000_000_000_000

  /** Identities are compared as tuples of all their public fields; equal tuples are equal numbers. */
  type Identity = nat

  /** What a stored row holds: nothing, something that does not project to a public identity, or one. */
  datatype StoredIdentity = Absent | Unreadable | Known(id: Identity)

  datatype Row = Row(
    identity: StoredIdentity,
    position: int,
    duration: int,
    watched: int,
    completed: bool,
    lastPlayedAt: nat,
    deleted: bool)

  datatype Event = Event(identity: Option<Identity>, position: int, duration: int, watched: int, completed: bool)

  // ---------------------------------------------------------------- the pure functions

  predicate Bounded(position: int, duration: int, watched: int) {
    && 0 <= position && 0 <= duration && 0 <= watched
    && ((duration == 0 && position == 0 && watched == 0)
        || (duration > 0 && position <= duration && watched <= duration))
  }

  /** normalizeHistoryInput accepts the progress. */
  predicate IsEvent(e: Event) {
    Bounded(e.position, e.duration, e.watched)
  }

  /** projectCanonicalIdentityDto. */
  function Project(identity: StoredIdentity): Option<Identity> {
    if identity.Known? then Some(identity.id) else None
  }

  /** bindCanonicalIdentity: a bound identity is inherited, a different one is refused. */
  function Bind(input: Event, current: Option<Row>): Result<Event, ()> {
    if current.None? || Project(current.value.identity).None? then Ok(input)
    else
      var bound := Project(current.value.identity).value;
      if input.identity.Some? && input.identity.value != bound then Err(())
      else Ok(input.(identity := Some(bound)))
  }

  /** An event that carries actual progress. */
  predicate HasProgress(e: Event) {
    e.duration > 0 && (e.position > 0 || e.watched > 0)
  }

  function Larger(a: int, b: int): int {
    if a >= b then a else b
  }

  /** mergeAfterConflict. */
  function Merge(input: Event, current: Option<Row>): Result<Event, ()> {
    if current.None? then Ok(input)
    else
      var row := current.value;
      var bound := Project(row.identity);
      if bound.Some? && input.identity.Some? && bound.value != input.identity.value then Err(())
      else
        var startsRewatch := row.completed && !input.completed && HasProgress(input);
        var keep := Bounded(row.position, row.duration, row.watched) && !startsRewatch;
        Ok(Event(
             if input.identity.None? then bound else input.identity,
             if keep then Larger(input.position, row.position) else input.position,
             if keep then Larger(input.duration, row.duration) else input.duration,
             if keep then Larger(input.watched, row.watched) else input.watched,
             input.completed || (row.completed && !startsRewatch)))
  }

  /** applyDirectEventSemantics: an empty event does not undo a completion. */
  function Direct(input: Event, current: Option<Row>): Result<Event, ()> {
    if current.None? || !current.value.completed || input.completed || HasProgress(input) then Ok(input)
    else
      var preserved := Merge(input, current);
      if preserved.Err? then Err(())
      else
        Ok(input.(position := preserved.value.position, duration := preserved.value.duration,
                  watched := preserved.value.watched, completed := true))
  }

  /** nextLastPlayedAt, from the row as stored, deleted or not. */
  function NextLastPlayedAt(now: nat, stored: Option<Row>): nat {
    if stored.None? then now
    else if stored.value.lastPlayedAt >= MAX_DATE_MS then MAX_DATE_MS
    else Max(now, stored.value.lastPlayedAt + 1)
  }

  function Live(stored: Option<Row>): Option<Row> {
    if stored.Some? && stored.value.deleted then None else stored
  }

  /** What the attempt numbered `attempt` of a put would write over the row it read. */
  function Entry(input: Event, stored: Option<Row>, attempt: nat, now: nat): Result<Row, ()> {
    var current := Live(stored);
    var bound := Bind(input, current);
    if bound.Err? then Err(())
    else
      var direct := Direct(bound.value, current);
      if direct.Err? then Err(())
      else
        var effective := if attempt == 0 then direct else Merge(direct.value, current);
        if effective.Err? then Err(())
        else
          var e := effective.value;
          Ok(Row(if e.identity.Some? then Known(e.identity.value) else Absent,
                 e.position, e.duration, e.watched, e.completed, NextLastPlayedAt(now, stored), false))
  }

  // ---------------------------------------------------------------- what they guarantee

  /** A put is refused exactly when the live row is bound to another identity. */
  lemma RefusedOnlyForAnotherIdentity(input: Event, stored: Option<Row>, attempt: nat, now: nat)
    ensures Entry(input, stored, attempt, now).Err? <==>
              && Live(stored).Some? && Live(stored).value.identity.Known?
              && input.identity.Some? && input.identity.value != Live(stored).value.identity.id
  {
  }

  /** A bound identity is kept as long as the row is live. */
  lemma BoundIdentityStays(input: Event, stored: Option<Row>, attempt: nat, now: nat)
    requires Entry(input, stored, attempt, now).Ok? && Live(stored).Some? && Live(stored).value.identity.Known?
    ensures Entry(input, stored, attempt, now).value.identity == Live(stored).value.identity
  {
  }

  /** What is written is bounded by its duration, whatever an older row holds. */
  lemma WrittenProgressIsBounded(input: Event, stored: Option<Row>, attempt: nat, now: nat)
    requires IsEvent(input) && Entry(input, stored, attempt, now).Ok?
    ensures
      var row := Entry(input, stored, attempt, now).value;
      Bounded(row.position, row.duration, row.watched)
  {
  }

  /** Completion is cleared exactly by an uncompleted event that carries progress. */
  lemma CompletionNeedsProgressToClear(input: Event, stored: Option<Row>, attempt: nat, now: nat)
    requires Entry(input, stored, attempt, now).Ok? && Live(stored).Some? && Live(stored).value.completed
    ensures !Entry(input, stored, attempt, now).value.completed <==> !input.completed && HasProgress(input)
  {
  }

  /** An empty, uncompleted event: a player that starts or stops without having played. */
  predicate IsEmpty(e: Event) {
    !e.completed && !HasProgress(e)
  }

  /** What a put that meets no race stores: the event as it is, with the time moved on and the bound identity
      inherited. Only an empty event over a completed row leaves it completed, at the larger progress. */
  predicate StoresEvent(input: Event, stored: Option<Row>, row: Row) {
    var current := Live(stored);
    && !row.deleted
    && row.identity == (if current.Some? && current.value.identity.Known? then current.value.identity
                        else if input.identity.Some? then Known(input.identity.value) else Absent)
    && if current.Some? && current.value.completed && IsEmpty(input) then
         row.completed
         && if Bounded(current.value.position, current.value.duration, current.value.watched) then
              && row.position == Larger(input.position, current.value.position)
              && row.duration == Larger(input.duration, current.value.duration)
              && row.watched == Larger(input.watched, current.value.watched)
            else row.position == input.position && row.duration == input.duration && row.watched == input.watched
       else
         && row.position == input.position && row.duration == input.duration && row.watched == input.watched
         && row.completed == input.completed
  }

  lemma FirstAttemptStoresTheEvent(input: Event, stored: Option<Row>, now: nat)
    requires Entry(input, stored, 0, now).Ok?
    ensures StoresEvent(input, stored, Entry(input, stored, 0, now).value)
    ensures Entry(input, stored, 0, now).value.lastPlayedAt == NextLastPlayedAt(now, stored)
  {
  }

  /** A later attempt over no live row, over a row that cannot be read, or with a rewatch stores the event too. */
  lemma RetryStoresTheEvent(input: Event, stored: Option<Row>, attempt: nat, now: nat)
    requires IsEvent(input) && Entry(input, stored, attempt, now).Ok? && attempt > 0
    ensures
      var current, row := Live(stored), Entry(input, stored, attempt, now).value;
      && (current.None? || (current.value.completed && !input.completed && HasProgress(input))
          || !Bounded(current.value.position, current.value.duration, current.value.watched) ==>
            row.position == input.position && row.duration == input.duration && row.watched == input.watched)
      && row.identity == (if current.Some? && current.value.identity.Known? then current.value.identity
                          else if input.identity.Some? then Known(input.identity.value) else Absent)
      && (row.completed <==> input.completed || (current.Some? && current.value.completed && !HasProgress(input)))
  {
  }

  /** A put that lost a race keeps the larger progress, unless it starts a rewatch. */
  lemma RetryLosesNoProgress(input: Event, stored: Option<Row>, attempt: nat, now: nat)
    requires IsEvent(input) && Entry(input, stored, attempt, now).Ok? && attempt > 0
    requires Live(stored).Some? && Bounded(stored.value.position, stored.value.duration, stored.value.watched)
    requires !(stored.value.completed && !input.completed && HasProgress(input))
    ensures
      var row := Entry(input, stored, attempt, now).value;
      && row.position == Larger(input.position, stored.value.position)
      && row.duration == Larger(input.duration, stored.value.duration)
      && row.watched == Larger(input.watched, stored.value.watched)
  {
  }

  /** The time strictly increases below its cap, even if the clock went back, and never exceeds the
      cap if the clock does not. */
  lemma TimeIncreases(now: nat, stored: Option<Row>)
    requires stored.Some?
    ensures stored.value.lastPlayedAt < MAX_DATE_MS ==> NextLastPlayedAt(now, stored) > stored.value.lastPlayedAt
    ensures stored.value.lastPlayedAt >= MAX_DATE_MS ==> NextLastPlayedAt(now, stored) == MAX_DATE_MS
    ensures NextLastPlayedAt(now, stored) >= Min(now, MAX_DATE_MS)
    ensures now <= MAX_DATE_MS ==> NextLastPlayedAt(now, stored) <= MAX_DATE_MS
  {
  }
}
