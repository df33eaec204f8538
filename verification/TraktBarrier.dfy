// The disconnect barrier over whole runs: what may write tokens after a disconnect, and when exactly a
// refresh call does.
module TraktBarrier {
  import opened Outcomes
  import opened TraktCredential
  import opened TraktProtocol
  import opened TraktSafety
  import opened TraktTheorems

  /** A refresh call stores the answer if and only if its put goes through and its own claim is still the
      record; so never over, or from before, the last disconnect. */
  lemma ARefreshIsStoredExactlyOverItsClaim(
    legacy: Option<Credentials>, steps: seq<Step>, w: World, pid: nat, c: Choice)
    requires w == Run(Initial(legacy), steps)
    requires pid in w.processes && w.processes[pid].Store? && NewTokens(w, c)
    ensures Apply(w, Act(pid, c)).history != w.history <==> !c.fails && w.processes[pid].claimed == |w.history|
    ensures w.processes[pid].claimed <= w.barrier ==> Apply(w, Act(pid, c)).history == w.history
  {
    hide Run, RecordOk, Loose;
    ProcessesCanAlwaysAct(legacy, steps, pid);
    var w' := Apply(w, Act(pid, c));
    if w'.history != w.history {
      ARefreshIsStoredOnlyOverItsClaim(legacy, steps, w, pid, c);
    }
    if w.processes[pid].claimed == |w.history| && !c.fails {
      assert |w'.history| == |w.history| + 1;
    }
  }

  // ---------------------------------------------------------------- from a disconnect on

  /** The world before step `i` of a run. */
  function At(legacy: Option<Credentials>, steps: seq<Step>, i: nat): World
    requires i <= |steps|
  {
    Run(Initial(legacy), steps[..i])
  }

  lemma AtNext(legacy: Option<Credentials>, steps: seq<Step>, i: nat)
    requires i < |steps|
    ensures At(legacy, steps, i + 1) == Apply(At(legacy, steps, i), steps[i])
  {
    assert steps[..i + 1][..i] == steps[..i];
  }

  predicate IsDisconnected(w: World) {
    |w.history| > 0 && ReadRefreshState(Record(w).credentials) == Disconnected
  }

  /** An OAuth callback launched from the disconnected record itself stores its tokens over it. */
  predicate Reconnects(w: World, step: Step) {
    && IsDisconnected(w) && step.Act? && step.pid in w.processes
    && w.processes[step.pid].ReplacePut? && w.processes[step.pid].launched == |w.history|
    && Apply(w, step).history
       == w.history + [Entry(Connected(w.processes[step.pid].tokens, w.processes[step.pid].generation), |w.history|)]
  }

  lemma WhatEndsADisconnect(legacy: Option<Credentials>, steps: seq<Step>, w: World, step: Step)
    requires w == Run(Initial(legacy), steps)
    requires IsDisconnected(w) && !IsDisconnected(Apply(w, step))
    ensures Reconnects(w, step)
  {
    hide Run, RecordOk, ReadRefreshState;
    Reachable(legacy, steps);
    assert Apply(w, step).history != w.history;
    StepWrites(w, step);
    OnlyACallbackEndsADisconnect(legacy, steps, w, step);
  }

  lemma {:induction false} HistoryGrows(legacy: Option<Credentials>, steps: seq<Step>, j: nat, i: nat)
    requires j <= i <= |steps|
    ensures At(legacy, steps, j).history <= At(legacy, steps, i).history
    decreases i
  {
    hide Apply, At, Inv;
    if j < i {
      HistoryGrows(legacy, steps, j, i - 1);
      AtNext(legacy, steps, i - 1);
      AtIsSound(legacy, steps, i - 1);
      var w := At(legacy, steps, i - 1);
      if Apply(w, steps[i - 1]).history != w.history {
        StepWrites(w, steps[i - 1]);
      }
    }
  }

  lemma AtIsSound(legacy: Option<Credentials>, steps: seq<Step>, i: nat)
    requires i <= |steps|
    ensures Inv(At(legacy, steps, i))
  {
    Reachable(legacy, steps[..i]);
  }

  /** Once disconnected, the record stays disconnected, and so without tokens, until a callback launched at
      that revision or a later one has stored. */
  lemma {:induction false} DisconnectedUntilACallbackStores(
    legacy: Option<Credentials>, steps: seq<Step>, d: nat, i: nat)
    requires d <= i <= |steps| && IsDisconnected(At(legacy, steps, d))
    ensures
      || (IsDisconnected(At(legacy, steps, i)) && !HasTokens(Record(At(legacy, steps, i)).credentials.tokens))
      || exists j :: d <= j < i && Reconnects(At(legacy, steps, j), steps[j])
                     && |At(legacy, steps, d).history| <= |At(legacy, steps, j).history|
    decreases i
  {
    hide Apply, At, Reconnects;
    if d < i {
      DisconnectedUntilACallbackStores(legacy, steps, d, i - 1);
      AtNext(legacy, steps, i - 1);
      HistoryGrows(legacy, steps, d, i - 1);
      var w := At(legacy, steps, i - 1);
      if IsDisconnected(w) && !IsDisconnected(At(legacy, steps, i)) {
        EndsAt(legacy, steps, i - 1);
      }
    }
  }

  lemma EndsAt(legacy: Option<Credentials>, steps: seq<Step>, i: nat)
    requires i < |steps| && IsDisconnected(At(legacy, steps, i))
    requires !IsDisconnected(Apply(At(legacy, steps, i), steps[i]))
    ensures Reconnects(At(legacy, steps, i), steps[i])
  {
    WhatEndsADisconnect(legacy, steps[..i], At(legacy, steps, i), steps[i]);
  }

  /** After a disconnect, a refresh call however old stores only over a claim it made after a callback of a
      later launch had stored: the claim's revision lies above the callback's. */
  lemma ARefreshAfterADisconnectClaimedAnew(legacy: Option<Credentials>, steps: seq<Step>, d: nat, i: nat)
    requires d <= i < |steps| && IsDisconnected(At(legacy, steps, d))
    requires steps[i].Act? && steps[i].pid in At(legacy, steps, i).processes
    requires At(legacy, steps, i).processes[steps[i].pid].Store?
    requires Apply(At(legacy, steps, i), steps[i]).history != At(legacy, steps, i).history
    ensures
      exists j :: d <= j < i && Reconnects(At(legacy, steps, j), steps[j])
                  && |At(legacy, steps, d).history| <= |At(legacy, steps, j).history|
                  && At(legacy, steps, i).processes[steps[i].pid].claimed > |At(legacy, steps, j).history| + 1
  {
    hide At, Apply, Reconnects, HasTokens;
    var w := At(legacy, steps, i);
    StoredOverAClaim(legacy, steps, i);
    DisconnectedUntilACallbackStores(legacy, steps, d, i);
    var j :| d <= j < i && Reconnects(At(legacy, steps, j), steps[j])
             && |At(legacy, steps, d).history| <= |At(legacy, steps, j).history|;
    ReconnectedRevision(legacy, steps, j, i);
  }

  lemma StoredOverAClaim(legacy: Option<Credentials>, steps: seq<Step>, i: nat)
    requires i < |steps| && steps[i].Act? && steps[i].pid in At(legacy, steps, i).processes
    requires At(legacy, steps, i).processes[steps[i].pid].Store?
    requires Apply(At(legacy, steps, i), steps[i]).history != At(legacy, steps, i).history
    ensures
      var w := At(legacy, steps, i);
      && 0 < w.processes[steps[i].pid].claimed == |w.history|
      && Record(w).credentials.refreshField.InFlight? && !IsDisconnected(w)
  {
    ARefreshIsStoredOnlyOverItsClaim(legacy, steps[..i], At(legacy, steps, i), steps[i].pid, steps[i].choice);
  }

  /** The callback's revision stays in the history as it was stored. */
  lemma ReconnectedRevision(legacy: Option<Credentials>, steps: seq<Step>, j: nat, i: nat)
    requires j < i <= |steps| && Reconnects(At(legacy, steps, j), steps[j])
    ensures
      var r := |At(legacy, steps, j).history|;
      |At(legacy, steps, i).history| > r && At(legacy, steps, i).history[r].credentials.refreshField.Absent?
  {
    hide At, Apply;
    AtNext(legacy, steps, j);
    HistoryGrows(legacy, steps, j + 1, i);
    var r := |At(legacy, steps, j).history|;
    assert At(legacy, steps, j + 1).history[r] == At(legacy, steps, i).history[r];
  }
}
