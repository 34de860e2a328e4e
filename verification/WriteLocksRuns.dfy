/** A concrete run of two Runs on one target: the second has the lock and a Change in flight, and
    the write that lands is one the first left behind. */
module WriteLocksRuns {
  import opened Outcomes
  import opened WritePath
  import opened WritePathFrames
  import opened WritePathTheorems
  import opened WritePathRuns
  import opened WriteLocks

  const TARGET := Target(0, 0, 0)
  const FIRST: RunId := 0
  const SECOND: RunId := 1

  /** One Run and nothing else. */
  function Alone(w: World): System {
    System(map[FIRST := w], map[FIRST := TARGET], map[TARGET := w.host.link])
  }

  lemma SystemReaches(s: System, e: SystemEvent, s': System)
    requires SystemReachable(s) && s.runs.Keys == s.on.Keys && SystemNext(s, e) == Some(s')
    ensures SystemReachable(s')
  {
    hide SystemNext;
    var s0, es :| SystemInit(s0) && SystemRuns(s0, es, s);
    SystemRunsExtend(s0, es, s, e, s');
  }

  lemma {:induction false} SystemRunsExtend(s0: System, es: seq<SystemEvent>, s: System, e: SystemEvent, s': System)
    requires SystemRuns(s0, es, s) && s.runs.Keys == s.on.Keys && SystemNext(s, e) == Some(s')
    ensures SystemRuns(s0, es + [e], s')
    decreases |es|
  {
    hide SystemNext;
    if es == [] {
      assert [e][1..] == [] && es + [e] == [e];
      assert SystemRuns(s', [], s');
    } else {
      assert (es + [e])[0] == es[0] && (es + [e])[1..] == es[1..] + [e];
      SystemRunsExtend(SystemNext(s0, es[0]).value, es[1..], s, e, s');
    }
  }

  lemma AloneIsCreated(w0: World)
    requires Init(w0)
    ensures SystemReachable(Alone(w0))
  {
    var empty := System(map[], map[], map[TARGET := w0.host.start]);
    assert SystemInit(empty) && SystemRuns(empty, [], empty);
    assert SystemNext(empty, Create(FIRST, w0.p, TARGET)) == Some(Alone(w0));
    SystemReaches(empty, Create(FIRST, w0.p, TARGET), Alone(w0));
  }

  lemma AloneSteps(w: World, e: Event, w': World)
    requires SystemReachable(Alone(w)) && Next(w, e) == Some(w') && !(e.HostStep? && e.move.ForeignWrite?)
    ensures SystemReachable(Alone(w'))
  {
    hide SystemReachable, Next;
    var s := Alone(w);
    assert Spread(s, FIRST, w') == map[FIRST := w'];
    assert Moved(s, FIRST, w') == Alone(w');
    SystemReaches(s, Step(FIRST, e), Alone(w'));
  }

  /** A Run by itself, undisturbed, does in a system what it does by itself. */
  lemma {:induction false} AloneRuns(w: World, es: seq<Event>, w': World)
    requires SystemReachable(Alone(w)) && Runs(w, es, w') && !w'.host.foreign
    ensures SystemReachable(Alone(w'))
    decreases |es|
  {
    hide SystemReachable, Alone;
    if es != [] {
      var next := Next(w, es[0]).value;
      if es[0].HostStep? && es[0].move.ForeignWrite? { ForeignStays(next, es[1..], w'); }
      hide Next;
      AloneSteps(w, es[0], next);
      AloneRuns(next, es[1..], w');
    }
  }

  lemma AloneReaches(w: World)
    requires Reachable(w) && !w.host.foreign
    ensures SystemReachable(Alone(w))
  {
    var w0, es :| Init(w0) && Runs(w0, es, w);
    AloneIsCreated(w0);
    hide SystemReachable, Alone, Init;
    AloneRuns(w0, es, w);
  }

  // ------------------------------------------------------------------------- a second Run joins

  const ANOTHER_CHANGE := Preview(FieldChange, 1500, 4000, false, false)

  /** Two Runs on the target. */
  function Pair(first: World, second: World, link: int): System {
    System(map[FIRST := first, SECOND := second], map[FIRST := TARGET, SECOND := TARGET], map[TARGET := link])
  }

  /** The first Run has ended; the second stands at `w`. */
  function Both(w: World): System {
    Pair(ROLLED_BACK, w, 1500)
  }

  lemma SecondSteps(w: World, e: Event, w': World)
    requires SystemReachable(Both(w)) && Next(w, e) == Some(w') && !e.HostStep? && w'.host.link == 1500
    ensures SystemReachable(Both(w'))
  {
    hide SystemReachable, Next;
    var s := Both(w);
    assert Spread(s, SECOND, w') == Both(w').runs;
    assert Moved(s, SECOND, w') == Both(w');
    SystemReaches(s, Step(SECOND, e), Both(w'));
  }

  lemma SecondCommits(w: World, w': World)
    requires SystemReachable(Both(w)) && CommitNext(w) == Some(w') && w'.host.link == 1500
    ensures SystemReachable(Both(w'))
  {
    hide SystemReachable, CommitNext;
    SecondSteps(w, Commit, w');
  }

  const SECOND_NEW := World(ANOTHER_CHANGE, NEW_ROW, Idle, NoFlow, false, NEW_HOST)

  lemma SecondIsCreated()
    ensures SystemReachable(Both(SECOND_NEW))
  {
    RolledBackUnderAStraggler();
    AloneReaches(ROLLED_BACK);
    hide SystemReachable, Reachable;
    var s := Alone(ROLLED_BACK);
    assert s.runs[SECOND := SECOND_NEW] == Both(SECOND_NEW).runs && s.on[SECOND := TARGET] == Both(SECOND_NEW).on;
    SystemReaches(s, Create(SECOND, ANOTHER_CHANGE, TARGET), Both(SECOND_NEW));
  }

  /** The second Run, past the boundary with the lock the first gave back. */
  const SECOND_CROSSED :=
    World(ANOTHER_CHANGE,
          NEW_ROW.(state := Applying, confirmation := Consumed, locked := true,
                   checkpoint := Some(Checkpoint(1500, 4000)), change := Some(NewChange(ANOTHER_CHANGE))),
          InApply(Crossed), ApplyFlow, false, NEW_HOST)

  lemma SecondCrosses()
    ensures SystemReachable(Both(SECOND_CROSSED))
  {
    hide SystemReachable, Both;
    SecondIsCreated();
    var w1 := SECOND_NEW.(row := NEW_ROW.(confirmation := Granted));
    SecondSteps(SECOND_NEW, Begin(ConfirmCall), w1);
    var w2 := w1.(row := w1.row.(locked := true), pc := InApply(Acquired), flow := ApplyFlow);
    SecondSteps(w1, Begin(ApplyCall), w2);
    var w3 := Await(w2);
    SecondCommits(w2, w3);
    SecondPrepares(w3);
  }

  lemma SecondPrepares(w3: World)
    requires SystemReachable(Both(w3))
    requires w3 == SECOND_NEW.(row := NEW_ROW.(confirmation := Granted, locked := true, state := AwaitingConfirmation),
                               pc := InApply(Waiting), flow := ApplyFlow)
    ensures SystemReachable(Both(SECOND_CROSSED))
  {
    hide SystemReachable, Both;
    var w4 := ConsumeConfirmation(w3);
    SecondCommits(w3, w4);
    var w5 := WriteCheckpoint(w4);
    SecondCommits(w4, w5);
    SecondCommits(w5, SECOND_CROSSED);
  }

  // ------------------------------------------------------------------------- and the first writes

  const MATCHED := ROLLED_BACK.host.(wire := ROLLED_BACK.host.wire[ApplyWrite := Request(1500, 9000, Matched)])

  const LANDED :=
    MATCHED.(wire := MATCHED.wire[ApplyWrite := Request(1500, 9000, Closed(true))], accepted := [ApplyWrite],
             link := 9000)

  /** What the target holds once the first Run's apply has landed under the second's lock. */
  const INTERFERED := Pair(ROLLED_BACK.(host := LANDED), Disturbed(SECOND_CROSSED, 9000), 9000)

  /** It happens: the first Run has ended ROLLED_BACK and given its lock back, the second holds the
      target with a Change in flight and has written nothing, and the helper accepts the first
      one's apply. */
  lemma InterferenceExists()
    ensures SystemReachable(Both(SECOND_CROSSED)) && SystemReachable(INTERFERED)
    ensures WriteLocks.Holding(SECOND_CROSSED.row) && SECOND_CROSSED.row.locked && SECOND_CROSSED.host.sends == []
    ensures ROLLED_BACK.row.state == RolledBack && !ROLLED_BACK.row.locked && !WriteLocks.Holding(ROLLED_BACK.row)
    ensures Ready(ROLLED_BACK, ApplyWrite)
    ensures SystemRuns(Both(SECOND_CROSSED), [Step(FIRST, HostStep(MatchRequest(ApplyWrite))),
                                              Step(FIRST, HostStep(AcceptRequest(ApplyWrite)))], INTERFERED)
    ensures INTERFERED.runs[FIRST].host.accepted == [ApplyWrite]
    ensures INTERFERED.runs[SECOND].host.link == 9000 && WriteLocks.Holding(INTERFERED.runs[SECOND].row)
  {
    SecondCrosses();
    hide SystemReachable, SystemNext;
    var s := Both(SECOND_CROSSED);
    var s1 := MatchSpreads();
    AcceptSpreads(s1);
    var matching := Step(FIRST, HostStep(MatchRequest(ApplyWrite)));
    var accepting := Step(FIRST, HostStep(AcceptRequest(ApplyWrite)));
    TwoSystemSteps(s, matching, s1, accepting, INTERFERED);
  }

  lemma TwoSystemSteps(s: System, e1: SystemEvent, s1: System, e2: SystemEvent, s2: System)
    requires SystemReachable(s) && s.runs.Keys == s.on.Keys && SystemNext(s, e1) == Some(s1)
    requires s1.runs.Keys == s1.on.Keys && SystemNext(s1, e2) == Some(s2)
    ensures SystemReachable(s2) && SystemRuns(s, [e1, e2], s2)
  {
    SystemReaches(s, e1, s1);
    SystemReaches(s1, e2, s2);
    hide SystemNext, SystemReachable;
    assert [e1, e2][1..] == [e2] && [e2][1..] == [];
    assert SystemRuns(s2, [], s2);
    assert SystemRuns(s1, [e2], s2);
  }

  lemma MatchIsNext()
    ensures HostMoveNext(ROLLED_BACK, MatchRequest(ApplyWrite)) == Some(ROLLED_BACK.(host := MATCHED))
  {
  }

  lemma AcceptIsNext()
    ensures HostMoveNext(ROLLED_BACK.(host := MATCHED), AcceptRequest(ApplyWrite)) == Some(ROLLED_BACK.(host := LANDED))
  {
    assert [] + [ApplyWrite] == [ApplyWrite];
  }

  lemma FirstMoves(w: World, m: HostMove, w': World, second: World)
    requires HostMoveNext(w, m) == Some(w') && !m.ForeignWrite?
    ensures SystemNext(Pair(w, second, w.host.link), Step(FIRST, HostStep(m)))
         == Some(Pair(w', Disturbed(second, w'.host.link), w'.host.link))
  {
    hide HostMoveNext, Disturbed;
    var s := Pair(w, second, w.host.link);
    assert Spread(s, FIRST, w') == map[FIRST := w', SECOND := Disturbed(second, w'.host.link)];
    assert s.links[TARGET := w'.host.link] == map[TARGET := w'.host.link];
  }

  lemma MatchSpreads() returns (s1: System)
    ensures s1 == Pair(ROLLED_BACK.(host := MATCHED), SECOND_CROSSED, 1500)
    ensures SystemNext(Both(SECOND_CROSSED), Step(FIRST, HostStep(MatchRequest(ApplyWrite)))) == Some(s1)
  {
    MatchIsNext();
    s1 := Pair(ROLLED_BACK.(host := MATCHED), SECOND_CROSSED, 1500);
    hide HostMoveNext, SystemNext;
    FirstMoves(ROLLED_BACK, MatchRequest(ApplyWrite), ROLLED_BACK.(host := MATCHED), SECOND_CROSSED);
  }

  lemma AcceptSpreads(s1: System)
    requires s1 == Pair(ROLLED_BACK.(host := MATCHED), SECOND_CROSSED, 1500)
    ensures SystemNext(s1, Step(FIRST, HostStep(AcceptRequest(ApplyWrite)))) == Some(INTERFERED)
  {
    AcceptIsNext();
    hide HostMoveNext, SystemNext;
    FirstMoves(ROLLED_BACK.(host := MATCHED), AcceptRequest(ApplyWrite), ROLLED_BACK.(host := LANDED), SECOND_CROSSED);
  }
}
