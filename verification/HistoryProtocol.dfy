// Concurrent puts and removals of one history row: retry loops over compare-and-swap, where every read
// and every write is one atomic step and anything may happen in between.
module HistoryProtocol {
  import opened Outcomes
  import opened HistoryMerge

  /** Program points of a put or a removal. `base` is the revision that was read, `row` what would be
      written over it. */
  datatype Process =
    | PutReading(input: Event, attempt: nat)
    | PutWriting(input: Event, attempt: nat, base: nat, row: Row)
    | RemoveReading(attempt: nat)
    | RemoveWriting(attempt: nat, base: nat)
    | Ended

  /** `rows` are all versions of the row: the last one is stored, its revision is their number. */
  datatype World = World(maxAttempts: nat, rows: seq<Row>, processes: map<nat, Process>)

  datatype Step =
    | StartPut(pid: nat, input: Event)
    | StartRemove(pid: nat)
    | Act(pid: nat, now: nat)
    | Crash(pid: nat)

  function Stored(w: World): Option<Row> {
    if |w.rows| == 0 then None else Some(w.rows[|w.rows| - 1])
  }

  function RowAt(w: World, revision: nat): Option<Row>
    requires revision <= |w.rows|
  {
    if revision == 0 then None else Some(w.rows[revision - 1])
  }

  /** The repository refuses a write over another revision, or of an earlier time. */
  predicate Swaps(w: World, base: nat, row: Row) {
    base == |w.rows| && (base > 0 ==> row.lastPlayedAt >= w.rows[base - 1].lastPlayedAt)
  }

  function Cleared(row: Row): Row {
    Row(Absent, 0, 0, 0, false, row.lastPlayedAt, true)
  }

  /** A clock beyond the last date makes a put throw. */
  function ActStep(w: World, p: Process, now: nat): (World, Process) {
    match p
    case PutReading(input, attempt) =>
      var entry := Entry(input, Stored(w), attempt, now);
      (w, if entry.Err? || now > MAX_DATE_MS then Ended else PutWriting(input, attempt, |w.rows|, entry.value))
    case PutWriting(input, attempt, base, row) =>
      if Swaps(w, base, row) then (w.(rows := w.rows + [row]), Ended)
      else (w, if attempt + 1 >= w.maxAttempts then Ended else PutReading(input, attempt + 1))
    case RemoveReading(attempt) =>
      (w, if Live(Stored(w)).None? then Ended else RemoveWriting(attempt, |w.rows|))
    case RemoveWriting(attempt, base) =>
      if Live(Stored(w)).None? then (w, Ended)
      else if base == |w.rows| then (w.(rows := w.rows + [Cleared(w.rows[|w.rows| - 1])]), Ended)
      else (w, if attempt + 1 >= w.maxAttempts then Ended else RemoveReading(attempt + 1))
    case Ended => (w, Ended)
  }

  function Apply(w: World, step: Step): World {
    match step
    case StartPut(pid, input) =>
      if pid in w.processes || !IsEvent(input) then w
      else w.(processes := w.processes[pid := PutReading(input, 0)])
    case StartRemove(pid) =>
      if pid in w.processes then w else w.(processes := w.processes[pid := RemoveReading(0)])
    case Act(pid, now) =>
      if pid !in w.processes then w
      else
        var (w', p') := ActStep(w, w.processes[pid], now);
        w'.(processes := w.processes[pid := p'])
    case Crash(pid) => w.(processes := w.processes - {pid})
  }

  function Run(w: World, steps: seq<Step>): World
    decreases |steps|
  {
    if |steps| == 0 then w else Apply(Run(w, steps[..|steps| - 1]), steps[|steps| - 1])
  }

  /** No row, or one left by an earlier version with whatever it holds. */
  function Initial(maxAttempts: nat, legacy: Option<Row>): World {
    World(maxAttempts, if legacy.Some? then [legacy.value] else [], map[])
  }

  // ---------------------------------------------------------------- invariant

  /** What is about to be written was computed from the revision it will be written over. */
  ghost predicate ProcessOk(w: World, p: Process) {
    match p
    case PutReading(input, _) => IsEvent(input)
    case PutWriting(input, attempt, base, row) =>
      && IsEvent(input) && base <= |w.rows|
      && exists now: nat :: now <= MAX_DATE_MS && Entry(input, RowAt(w, base), attempt, now) == Ok(row)
    case RemoveWriting(_, base) => 0 < base <= |w.rows|
    case _ => true
  }

  /** How one version of the row follows another: by an event or a removal. */
  ghost predicate Follows(before: Option<Row>, after: Row) {
    || (exists input: Event, attempt: nat, now: nat ::
          IsEvent(input) && now <= MAX_DATE_MS && Entry(input, before, attempt, now) == Ok(after))
    || (before.Some? && !before.value.deleted && after == Cleared(before.value))
  }

  ghost predicate RowsOk(w: World, first: nat) {
    forall i :: first <= i < |w.rows| ==> Follows(RowAt(w, i), w.rows[i])
  }

  ghost predicate Inv(w: World, first: nat) {
    RowsOk(w, first) && forall pid :: pid in w.processes ==> ProcessOk(w, w.processes[pid])
  }

  lemma ProcessStaysOk(w: World, v: World, p: Process)
    requires ProcessOk(w, p) && w.rows <= v.rows
    ensures ProcessOk(v, p)
  {
    if p.PutWriting? {
      assert RowAt(v, p.base) == RowAt(w, p.base);
    }
  }

  lemma ActKeeps(w: World, pid: nat, now: nat, first: nat)
    requires Inv(w, first) && pid in w.processes
    ensures Inv(Apply(w, Act(pid, now)), first) && w.rows <= Apply(w, Act(pid, now)).rows
  {
    hide Entry, Follows;
    var p, w' := w.processes[pid], Apply(w, Act(pid, now));
    var (v, p') := ActStep(w, p, now);
    assert ProcessOk(w, p);
    assert w.rows <= v.rows;
    NewRowFollows(w, p, now);
    forall i | first <= i < |w'.rows| ensures Follows(RowAt(w', i), w'.rows[i]) {
      if i < |w.rows| {
        assert RowAt(w', i) == RowAt(w, i) && w'.rows[i] == w.rows[i];
      }
    }
    forall q | q in w'.processes ensures ProcessOk(w', w'.processes[q]) {
      if q != pid {
        ProcessStaysOk(w, w', w.processes[q]);
      } else {
        MovedIsOk(w, p, now);
        ProcessStaysOk(v, w', p');
      }
    }
  }

  lemma MovedIsOk(w: World, p: Process, now: nat)
    requires ProcessOk(w, p)
    ensures ProcessOk(ActStep(w, p, now).0, ActStep(w, p, now).1)
  {
    hide Entry;
    if p.PutReading? {
      assert RowAt(w, |w.rows|) == Stored(w);
      assert Entry(p.input, RowAt(w, |w.rows|), p.attempt, now) == Entry(p.input, Stored(w), p.attempt, now);
    }
  }

  /** A write takes effect only over the revision it was computed from. */
  lemma NewRowFollows(w: World, p: Process, now: nat)
    requires ProcessOk(w, p)
    ensures
      var v := ActStep(w, p, now).0;
      v.rows == w.rows
      || (|v.rows| == |w.rows| + 1 && v.rows[..|w.rows|] == w.rows && Follows(Stored(w), v.rows[|w.rows|]))
  {
    hide Entry;
  }

  lemma {:induction false} RunKeeps(w: World, steps: seq<Step>, first: nat)
    requires Inv(w, first)
    ensures Inv(Run(w, steps), first) && w.rows <= Run(w, steps).rows
    decreases |steps|
  {
    hide ProcessOk, RowsOk, Follows;
    if |steps| > 0 {
      var front, last := steps[..|steps| - 1], steps[|steps| - 1];
      RunKeeps(w, front, first);
      StepKeeps(Run(w, front), last, first);
    }
  }

  lemma StepKeeps(w: World, step: Step, first: nat)
    requires Inv(w, first)
    ensures Inv(Apply(w, step), first) && w.rows <= Apply(w, step).rows
  {
    hide Entry, Follows, IsEvent;
    var w' := Apply(w, step);
    if step.Act? {
      if step.pid in w.processes {
        ActKeeps(w, step.pid, step.now, first);
      }
    } else {
      assert forall i :: 0 <= i <= |w.rows| ==> RowAt(w', i) == RowAt(w, i);
      forall q | q in w'.processes ensures ProcessOk(w', w'.processes[q]) {
        if q in w.processes && w'.processes[q] == w.processes[q] {
          ProcessStaysOk(w, w', w.processes[q]);
        }
      }
    }
  }

  // ---------------------------------------------------------------- theorems

  /** Of all versions a run of puts and removals has written, each follows from the one before it. */
  lemma VersionsFollow(maxAttempts: nat, legacy: Option<Row>, steps: seq<Step>, w: World, i: nat)
    requires w == Run(Initial(maxAttempts, legacy), steps)
    requires (if legacy.Some? then 1 else 0) <= i < |w.rows|
    ensures Follows(RowAt(w, i), w.rows[i])
  {
    hide Run, Follows;
    RunKeeps(Initial(maxAttempts, legacy), steps, if legacy.Some? then 1 else 0);
  }

  /** Progress stays within its duration, on every interleaving and whatever an older row held. */
  lemma ProgressStaysBounded(maxAttempts: nat, legacy: Option<Row>, steps: seq<Step>, w: World, i: nat)
    requires w == Run(Initial(maxAttempts, legacy), steps)
    requires (if legacy.Some? then 1 else 0) <= i < |w.rows|
    ensures Bounded(w.rows[i].position, w.rows[i].duration, w.rows[i].watched)
  {
    hide Run, Entry;
    VersionsFollow(maxAttempts, legacy, steps, w, i);
    var before, after := RowAt(w, i), w.rows[i];
    if input: Event, attempt: nat, now: nat :|
        IsEvent(input) && now <= MAX_DATE_MS && Entry(input, before, attempt, now) == Ok(after) {
      WrittenProgressIsBounded(input, before, attempt, now);
    }
  }

  /** The time of the row never goes back, and with every event it grows, until it has reached its cap. */
  lemma TimeNeverGoesBack(maxAttempts: nat, legacy: Option<Row>, steps: seq<Step>, w: World, i: nat)
    requires w == Run(Initial(maxAttempts, legacy), steps) && 1 <= i < |w.rows|
    ensures
      var before, after := w.rows[i - 1], w.rows[i];
      if after.deleted then after.lastPlayedAt == before.lastPlayedAt
      else if before.lastPlayedAt < MAX_DATE_MS then after.lastPlayedAt > before.lastPlayedAt
      else after.lastPlayedAt == MAX_DATE_MS
  {
    hide Run;
    VersionsFollow(maxAttempts, legacy, steps, w, i);
    var before, after := w.rows[i - 1], w.rows[i];
    if input: Event, attempt: nat, now: nat :|
        IsEvent(input) && now <= MAX_DATE_MS && Entry(input, RowAt(w, i), attempt, now) == Ok(after) {
      TimeIncreases(now, RowAt(w, i));
    }
  }

  /** A bound identity never changes while the row is live. */
  lemma IdentityStaysWhileLive(maxAttempts: nat, legacy: Option<Row>, steps: seq<Step>, w: World, i: nat)
    requires w == Run(Initial(maxAttempts, legacy), steps) && 1 <= i < |w.rows|
    requires !w.rows[i - 1].deleted && w.rows[i - 1].identity.Known? && !w.rows[i].deleted
    ensures w.rows[i].identity == w.rows[i - 1].identity
  {
    hide Run, Entry;
    VersionsFollow(maxAttempts, legacy, steps, w, i);
    var input: Event, attempt: nat, now: nat :| IsEvent(input) && now <= MAX_DATE_MS
        && Entry(input, RowAt(w, i), attempt, now) == Ok(w.rows[i]);
    BoundIdentityStays(input, RowAt(w, i), attempt, now);
  }

  /** A completed row that is live becomes uncompleted only by events that carry progress: every event that
      gives the newer version has some. */
  lemma CompletionIsClearedByProgress(
    maxAttempts: nat, legacy: Option<Row>, steps: seq<Step>, w: World, i: nat, e: Event, attempt: nat, now: nat)
    requires w == Run(Initial(maxAttempts, legacy), steps) && 1 <= i < |w.rows|
    requires !w.rows[i - 1].deleted && w.rows[i - 1].completed && !w.rows[i].deleted && !w.rows[i].completed
    requires IsEvent(e) && Entry(e, RowAt(w, i), attempt, now) == Ok(w.rows[i])
    ensures HasProgress(e) && !e.completed
  {
    hide Run, Entry;
    CompletionNeedsProgressToClear(e, RowAt(w, i), attempt, now);
  }

  /** And the call that stores an uncompleted row over a completed one is a put, whose own event has progress. */
  lemma APutThatClearsCompletionHasProgress(
    maxAttempts: nat, legacy: Option<Row>, steps: seq<Step>, w: World, step: Step)
    requires w == Run(Initial(maxAttempts, legacy), steps)
    requires |w.rows| > 0 && Apply(w, step).rows != w.rows
    requires !w.rows[|w.rows| - 1].deleted && w.rows[|w.rows| - 1].completed
    requires var v := Apply(w, step); |v.rows| > |w.rows| ==> !v.rows[|w.rows|].deleted && !v.rows[|w.rows|].completed
    ensures step.Act? && step.pid in w.processes && w.processes[step.pid].PutWriting?
    ensures HasProgress(w.processes[step.pid].input) && !w.processes[step.pid].input.completed
  {
    hide Run, Entry;
    RunKeeps(Initial(maxAttempts, legacy), steps, if legacy.Some? then 1 else 0);
    var p := w.processes[step.pid];
    assert ProcessOk(w, p) && p.PutWriting?;
    var now: nat :| now <= MAX_DATE_MS && Entry(p.input, RowAt(w, p.base), p.attempt, now) == Ok(p.row);
    CompletionNeedsProgressToClear(p.input, RowAt(w, p.base), p.attempt, now);
  }

  lemma {:induction false} TimeStaysWithinItsCap(maxAttempts: nat, legacy: Option<Row>, steps: seq<Step>, w: World,
      i: nat)
    requires w == Run(Initial(maxAttempts, legacy), steps) && i < |w.rows|
    requires legacy.Some? ==> legacy.value.lastPlayedAt <= MAX_DATE_MS
    ensures w.rows[i].lastPlayedAt <= MAX_DATE_MS
    decreases i
  {
    hide Run, Entry;
    if legacy.Some? && i == 0 {
      RunKeeps(Initial(maxAttempts, legacy), steps, 1);
    } else {
      VersionsFollow(maxAttempts, legacy, steps, w, i);
      if i > 0 {
        TimeStaysWithinItsCap(maxAttempts, legacy, steps, w, i - 1);
      }
      if input: Event, attempt: nat, now: nat :|
        IsEvent(input) && now <= MAX_DATE_MS && Entry(input, RowAt(w, i), attempt, now) == Ok(w.rows[i])
      {
        EntryTime(input, RowAt(w, i), attempt, now);
      }
    }
  }

  lemma EntryTime(input: Event, stored: Option<Row>, attempt: nat, now: nat)
    requires Entry(input, stored, attempt, now).Ok?
    ensures Entry(input, stored, attempt, now).value.lastPlayedAt == NextLastPlayedAt(now, stored)
  {
  }

  /** The repository's check against earlier times never refuses a put of this service: a write fails
      only because another one came first. */
  lemma OnlyRacesRefuseAPut(
    maxAttempts: nat, legacy: Option<Row>, steps: seq<Step>, w: World, pid: nat)
    requires w == Run(Initial(maxAttempts, legacy), steps)
    requires legacy.Some? ==> legacy.value.lastPlayedAt <= MAX_DATE_MS
    requires pid in w.processes && w.processes[pid].PutWriting?
    ensures Swaps(w, w.processes[pid].base, w.processes[pid].row) <==> w.processes[pid].base == |w.rows|
  {
    hide Run, Entry, ProcessOk;
    var p := w.processes[pid];
    ProcessesAreOk(maxAttempts, legacy, steps, w, pid);
    if p.base == |w.rows| > 0 {
      TimeStaysWithinItsCap(maxAttempts, legacy, steps, w, p.base - 1);
      WrittenTime(w, p);
    }
  }

  lemma ProcessesAreOk(maxAttempts: nat, legacy: Option<Row>, steps: seq<Step>, w: World, pid: nat)
    requires w == Run(Initial(maxAttempts, legacy), steps) && pid in w.processes
    ensures ProcessOk(w, w.processes[pid])
  {
    hide Run, ProcessOk;
    RunKeeps(Initial(maxAttempts, legacy), steps, if legacy.Some? then 1 else 0);
  }

  lemma WrittenTime(w: World, p: Process)
    requires ProcessOk(w, p) && p.PutWriting? && 0 < p.base <= |w.rows|
    requires w.rows[p.base - 1].lastPlayedAt <= MAX_DATE_MS
    ensures p.row.lastPlayedAt >= w.rows[p.base - 1].lastPlayedAt
  {
    hide Entry;
    var now: nat :| now <= MAX_DATE_MS && Entry(p.input, RowAt(w, p.base), p.attempt, now) == Ok(p.row);
    EntryTime(p.input, RowAt(w, p.base), p.attempt, now);
  }

  /** A put whose first write meets no race stores its event; one that lost a race reads again, until its
      attempts are used up. */
  lemma AFirstWriteStoresTheEvent(
    maxAttempts: nat, legacy: Option<Row>, steps: seq<Step>, w: World, pid: nat, now: nat)
    requires w == Run(Initial(maxAttempts, legacy), steps)
    requires legacy.Some? ==> legacy.value.lastPlayedAt <= MAX_DATE_MS
    requires pid in w.processes && w.processes[pid].PutWriting?
    ensures
      var p, v := w.processes[pid], Apply(w, Act(pid, now));
      if p.base == |w.rows| then
        && v.rows == w.rows + [p.row] && (p.attempt == 0 ==> StoresEvent(p.input, Stored(w), p.row))
        && v.processes[pid] == Ended
      else
        && v.rows == w.rows
        && v.processes[pid] == if p.attempt + 1 < w.maxAttempts then PutReading(p.input, p.attempt + 1) else Ended
  {
    hide Run, Entry, StoresEvent, ProcessOk;
    var p := w.processes[pid];
    OnlyRacesRefuseAPut(maxAttempts, legacy, steps, w, pid);
    ProcessesAreOk(maxAttempts, legacy, steps, w, pid);
    if p.base == |w.rows| && p.attempt == 0 {
      ComputedFromItsBase(w, p);
    }
  }

  lemma ComputedFromItsBase(w: World, p: Process)
    requires ProcessOk(w, p) && p.PutWriting? && p.base == |w.rows| && p.attempt == 0
    ensures StoresEvent(p.input, Stored(w), p.row)
  {
    hide Entry, StoresEvent;
    var now: nat :| now <= MAX_DATE_MS && Entry(p.input, RowAt(w, p.base), p.attempt, now) == Ok(p.row);
    assert RowAt(w, p.base) == Stored(w);
    FirstAttemptStoresTheEvent(p.input, Stored(w), now);
  }

  /** An undisturbed put stores its event unless the row is bound to another identity. */
  lemma AnUndisturbedPutIsStored(
    maxAttempts: nat, legacy: Option<Row>, steps: seq<Step>, w: World, pid: nat, input: Event, now: nat)
    requires w == Run(Initial(maxAttempts, legacy), steps) && pid !in w.processes && IsEvent(input)
    requires legacy.Some? ==> legacy.value.lastPlayedAt <= MAX_DATE_MS
    requires now <= MAX_DATE_MS && Entry(input, Stored(w), 0, now).Ok?
    ensures
      var v := Apply(Apply(Apply(w, StartPut(pid, input)), Act(pid, now)), Act(pid, now));
      |v.rows| == |w.rows| + 1 && v.rows[..|w.rows|] == w.rows && StoresEvent(input, Stored(w), v.rows[|w.rows|])
  {
    hide Run, Entry, StoresEvent;
    var w1 := Apply(w, StartPut(pid, input));
    assert w1.processes[pid] == PutReading(input, 0) && w1.rows == w.rows;
    var w2 := Apply(w1, Act(pid, now));
    assert w2.processes[pid] == PutWriting(input, 0, |w.rows|, Entry(input, Stored(w), 0, now).value);
    FirstAttemptStoresTheEvent(input, Stored(w), now);
    if |w.rows| > 0 {
      TimeStaysWithinItsCap(maxAttempts, legacy, steps, w, |w.rows| - 1);
    }
  }

  /** A removal over the row it read clears it and keeps its time; without a live row it changes nothing. One that
      lost a race reads again, until its attempts are used up. */
  lemma ARemovalClearsExactly(w: World, pid: nat, now: nat)
    requires pid in w.processes && (w.processes[pid].RemoveWriting? || w.processes[pid].RemoveReading?)
    ensures
      var p, v := w.processes[pid], Apply(w, Act(pid, now));
      p.RemoveReading? ==>
        v.rows == w.rows
        && v.processes[pid] == if Live(Stored(w)).Some? then RemoveWriting(p.attempt, |w.rows|) else Ended
    ensures
      var p, v := w.processes[pid], Apply(w, Act(pid, now));
      p.RemoveWriting? ==>
      if Live(Stored(w)).Some? && p.base == |w.rows| then
        && |v.rows| == |w.rows| + 1 && v.rows[..|w.rows|] == w.rows && v.processes[pid] == Ended
        && v.rows[|w.rows|].deleted && v.rows[|w.rows|].lastPlayedAt == w.rows[|w.rows| - 1].lastPlayedAt
        && v.rows[|w.rows|].identity.Absent? && v.rows[|w.rows|].position == 0 && !v.rows[|w.rows|].completed
      else
        && v.rows == w.rows
        && v.processes[pid] == if Live(Stored(w)).Some? && p.attempt + 1 < w.maxAttempts
                               then RemoveReading(p.attempt + 1) else Ended
  {
  }
}
