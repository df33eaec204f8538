// The barrier is about where tokens come from, not about which call writes them: a refresh call
// started before a disconnect may outlive it and refresh the tokens of the next authorization.
module TraktReconnect {
  import opened Outcomes
  import opened TraktCredential
  import opened TraktProtocol

  function Quiet(generation: GenerationId): Choice {
    Choice(false, true, false, 7, generation, NO_TOKENS)
  }

  function Answer(access: Token, refresh: Token): Choice {
    Choice(false, true, false, 7, 0, Tokens(Some(access), Some(refresh)))
  }

  /** A refresh call reads revision 1 and pauses before it claims. */
  function BeginRefresh(): seq<Step> {
    [StartRefresh(1, NO_TOKENS), Act(1, Quiet(0)), Act(1, Quiet(0))]
  }

  function DisconnectMeanwhile(): seq<Step> {
    [StartDisconnect(2), Act(2, Quiet(0)), Act(2, Quiet(0)), Act(2, Quiet(2))]
  }

  function Launch(): seq<Step> {
    [StartLaunch(3), Act(3, Quiet(0)), Act(3, Quiet(0))]
  }

  function Admit(): seq<Step> {
    [StartCallback(4, 2, 2), Act(4, Quiet(0))]
  }

  function Connect(): seq<Step> {
    [Act(4, Answer(20, 21)), Act(4, Quiet(0)), Act(4, Quiet(0))]
  }

  /** The paused call loses its swap, reads again, and claims the new token ... */
  function Reclaim(): seq<Step> {
    [Act(1, Quiet(0)), Act(1, Quiet(0)), Act(1, Quiet(0))]
  }

  /** ... then stores the answer. */
  function Finish(): seq<Step> {
    [Act(1, Answer(30, 31)), Act(1, Quiet(0))]
  }

  lemma {:induction false} RunAppend(w: World, first: seq<Step>, second: seq<Step>)
    ensures Run(w, first + second) == Run(Run(w, first), second)
    decreases |second|
  {
    if |second| == 0 {
      assert first + second == first;
    } else {
      var front := second[..|second| - 1];
      RunAppend(w, first, front);
      assert (first + second)[..|first + second| - 1] == first + front;
    }
  }

  lemma RunFirst(w: World, steps: seq<Step>)
    requires |steps| > 0
    ensures Run(w, steps) == Run(Apply(w, steps[0]), steps[1..])
  {
    assert steps == [steps[0]] + steps[1..];
    RunAppend(w, [steps[0]], steps[1..]);
    assert [steps[0]][..0] == [];
    assert Run(w, [steps[0]]) == Apply(Run(w, []), steps[0]);
  }

  lemma RunNone(w: World)
    ensures Run(w, []) == w
  {
  }

  const Old := Entry(Connected(Tokens(None, Some(10)), 1), 0)
  const Gone := Entry(DisconnectedMarker(2), 0)
  const Back := Entry(Connected(Tokens(Some(20), Some(21)), 2), 2)

  lemma RefreshPauses()
    ensures Run(Initial(Some(Old.credentials)), BeginRefresh())
            == World([Old], multiset{}, {10}, {}, 0, map[1 := Refresh(1)])
  {
    hide Run;
    var w, s := Initial(Some(Old.credentials)), BeginRefresh();
    RunFirst(w, s);
    RunFirst(Apply(w, s[0]), s[1..]);
    RunFirst(Apply(Apply(w, s[0]), s[1]), s[2..]);
    RunNone(Apply(Apply(Apply(w, s[0]), s[1]), s[2]));
    assert s[3..] == [];
  }

  lemma DisconnectLands(w: World)
    requires w == World([Old], multiset{}, {10}, {}, 0, map[1 := Refresh(1)])
    ensures Run(w, DisconnectMeanwhile())
            == World([Old, Gone], multiset{}, {10}, {}, 2, map[1 := Refresh(1), 2 := Stopped])
  {
    hide Run;
    var s := DisconnectMeanwhile();
    RunFirst(w, s);
    var w1 := Apply(w, s[0]);
    RunFirst(w1, s[1..]);
    var w2 := Apply(w1, s[1]);
    RunFirst(w2, s[2..]);
    var w3 := Apply(w2, s[2]);
    assert w3.processes[2] == DisconnectPut(0, 1);
    RunFirst(w3, s[3..]);
    var w4 := Apply(w3, s[3]);
    assert w4.history == [Old, Gone];
    assert w4.seen == {10};
    RunNone(Apply(w3, s[3]));
    assert s[4..] == [];
  }

  lemma LaunchIsIssued(w: World)
    requires w == World([Old, Gone], multiset{}, {10}, {}, 2, map[1 := Refresh(1), 2 := Stopped])
    ensures Run(w, Launch())
            == World([Old, Gone], multiset{}, {10}, {(2, 2)}, 2, map[1 := Refresh(1), 2 := Stopped, 3 := Stopped])
  {
    hide Run;
    var s := Launch();
    RunFirst(w, s);
    var w1 := Apply(w, s[0]);
    RunFirst(w1, s[1..]);
    var w2 := Apply(w1, s[1]);
    assert w2.processes[3] == Ensure(0, 2, ThenLaunch);
    RunFirst(w2, s[2..]);
    RunNone(Apply(w2, s[2]));
    assert s[3..] == [];
  }

  lemma CallbackIsAdmitted(w: World)
    requires w.history == [Old, Gone] && (2, 2) in w.issued && 4 !in w.processes
    ensures Run(w, Admit()) == w.(processes := w.processes[4 := Exchange(2, 2)])
  {
    hide Run;
    var s := Admit();
    RunFirst(w, s);
    var w1 := Apply(w, s[0]);
    assert w1 == w.(processes := w.processes[4 := CallbackCheck(2, 2)]);
    RunFirst(w1, s[1..]);
    RunNone(Apply(w1, s[1]));
    assert s[2..] == [];
  }

  lemma CallbackStores(w: World)
    requires w.history == [Old, Gone] && w.seen == {10}
    requires 4 in w.processes && w.processes[4] == Exchange(2, 2)
    ensures Run(w, Connect())
            == w.(history := [Old, Gone, Back], seen := {10, 21}, processes := w.processes[4 := Stopped])
  {
    hide Run;
    var s := Connect();
    RunFirst(w, s);
    var w1 := Apply(w, s[0]);
    assert w1.processes[4] == ReplaceGet(2, 2, Tokens(Some(20), Some(21)));
    RunFirst(w1, s[1..]);
    var w2 := Apply(w1, s[1]);
    assert w2.processes[4] == ReplacePut(2, 2, 2, Tokens(Some(20), Some(21)));
    RunFirst(w2, s[2..]);
    var w3 := Apply(w2, s[2]);
    assert w3.history == [Old, Gone, Back] && w3.seen == {10, 21};
    RunNone(Apply(w2, s[2]));
    assert s[3..] == [];
  }

  lemma RefreshReclaims(w: World)
    requires w.history == [Old, Gone, Back] && w.seen == {10, 21}
    requires 1 in w.processes && w.processes[1] == Refresh(1)
    ensures Run(w, Reclaim())
            == w.(history := [Old, Gone, Back, Entry(TokenFree(false, InFlight(7), 2), 2)],
                  processes := w.processes[1 := Send(4, 21, 7, 2)])
  {
    hide Run;
    var s := Reclaim();
    RunFirst(w, s);
    var w1 := Apply(w, s[0]);
    assert w1.processes[1] == Poll;
    RunFirst(w1, s[1..]);
    var w2 := Apply(w1, s[1]);
    assert w2.processes[1] == Refresh(3);
    RunFirst(w2, s[2..]);
    RunNone(Apply(w2, s[2]));
    assert s[3..] == [];
  }

  lemma RefreshFinishes(w: World)
    requires w.history == [Old, Gone, Back, Entry(TokenFree(false, InFlight(7), 2), 2)] && w.seen == {10, 21}
    requires 1 in w.processes && w.processes[1] == Send(4, 21, 7, 2)
    ensures Run(w, Finish()).history
            == w.history + [Entry(Connected(Tokens(Some(30), Some(31)), 2), 2)]
  {
    hide Run;
    var s := Finish();
    RunFirst(w, s);
    var w1 := Apply(w, s[0]);
    assert w1.processes[1] == Store(4, Tokens(Some(30), Some(31)), 7, 2);
    RunFirst(w1, s[1..]);
    RunNone(Apply(w1, s[1]));
    assert s[2..] == [];
  }

  /** Process 1 had read the record before the disconnect at revision 2, yet its last step stores
      tokens at revision 5: they refresh the authorization launched from revision 2, not the
      dropped one. */
  lemma AnEarlierRefreshCallMayStoreLaterTokens()
    ensures
      var w := Initial(Some(Old.credentials));
      var before := BeginRefresh() + DisconnectMeanwhile();
      var end := Run(w, before + Launch() + Admit() + Connect() + Reclaim() + Finish());
      && Run(w, before).barrier == 2
      && Run(w, before).processes == map[1 := Refresh(1), 2 := Stopped]
      && Finish()[1] == Act(1, Quiet(0))
      && |end.history| == 5 && Record(end) == Entry(Connected(Tokens(Some(30), Some(31)), 2), 2)
  {
    var w := Initial(Some(Old.credentials));
    var before := BeginRefresh() + DisconnectMeanwhile();
    RefreshPauses();
    DisconnectLands(Run(w, BeginRefresh()));
    RunAppend(w, BeginRefresh(), DisconnectMeanwhile());
    var w1 := Run(w, before);
    LaunchIsIssued(w1);
    RunAppend(w, before, Launch());
    var w2 := Run(w, before + Launch());
    CallbackIsAdmitted(w2);
    RunAppend(w, before + Launch(), Admit());
    CallbackStores(Run(w2, Admit()));
    RunAppend(w, before + Launch() + Admit(), Connect());
    var w3 := Run(Run(w2, Admit()), Connect());
    RefreshReclaims(w3);
    RefreshFinishes(Run(w3, Reclaim()));
    RunAppend(w, before + Launch() + Admit() + Connect(), Reclaim());
    RunAppend(w, before + Launch() + Admit() + Connect() + Reclaim(), Finish());
  }
}
