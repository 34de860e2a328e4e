/** The agent's connection guards: armed reversals with a deadline, and a bounded memory of the
    ones that settled.

    `Registry` is what the registry holds, `Step` what one operation makes of it over its
    whole history, and the class `GuardHolder` the registry itself, updated in place. */
module GuardRegistry {
  import opened Outcomes
  import opened Remembering
  import WritePath

  type GuardId = string

  type Report = WritePath.Report

  const MAX_WINDOW_S := 600
  const MIN_WINDOW_S := 5

  /** How many settled guards are remembered. */
  const SETTLED_MEMORY := 64

  datatype Phase = Armed | Disarmed | Fired

  /** Everything but the last four fields was decided when the guard was armed. A guard whose
      write came back has its report; `timer` says its deadline is still being waited for, and
      `stamped` that it has the time of its firing. */
  datatype Guard = Guard(
    id: GuardId,
    attempt: string,
    ifindex: nat,
    name: Option<string>,
    guarded: nat,
    restore: nat,
    window: int,
    phase: Phase,
    mutation: Option<Report>,
    timer: bool,
    stamped: bool)

  datatype Refusal = WindowOutOfRange | NothingToRevert | AlreadyArmed | TargetHeld(holder: GuardId)

  /** What a caller is told. */
  datatype Answer = Known(guard: Guard) | Lost(id: GuardId) | Refused(refusal: Refusal)

  /** `settled` is in the order of settlement, oldest first. */
  datatype Registry = Registry(armed: map<GuardId, Guard>, settled: seq<Guard>)

  const NOTHING_HELD := Registry(map[], [])

  // -------------------------------------------------------------------------- what is held

  predicate Remembers(settled: seq<Guard>, id: GuardId) {
    exists i :: 0 <= i < |settled| && settled[i].id == id
  }

  function Recall(settled: seq<Guard>, id: GuardId): (g: Option<Guard>)
    ensures g.Some? <==> Remembers(settled, id)
    ensures g.Some? ==> g.value in settled && g.value.id == id
  {
    if settled == [] then None
    else if settled[|settled| - 1].id == id then Some(settled[|settled| - 1])
    else
      var g := Recall(settled[..|settled| - 1], id);
      assert Remembers(settled, id) ==> Remembers(settled[..|settled| - 1], id);
      g
  }

  predicate Holds(r: Registry, ifindex: nat) {
    exists id :: id in r.armed && r.armed[id].ifindex == ifindex
  }

  /** A request to arm carries no history of its own. */
  predicate Unused(g: Guard) {
    g.phase == Armed && g.mutation.None? && g.timer && !g.stamped
  }

  // ------------------------------------------------------------------------- the operations

  /** Why arming would be refused, in the order it is checked. */
  predicate Refuses(r: Registry, g: Guard, refusal: Refusal) {
    var window := MIN_WINDOW_S <= g.window <= MAX_WINDOW_S;
    var reverts := g.guarded != g.restore;
    var unheard := g.id !in r.armed && !Remembers(r.settled, g.id);
    match refusal
    case WindowOutOfRange => !window
    case NothingToRevert => window && !reverts
    case AlreadyArmed => window && reverts && !unheard
    case TargetHeld(holder) =>
      window && reverts && unheard && holder in r.armed && r.armed[holder].ifindex == g.ifindex
  }

  predicate Admits(r: Registry, g: Guard) {
    && MIN_WINDOW_S <= g.window <= MAX_WINDOW_S
    && g.guarded != g.restore
    && g.id !in r.armed
    && !Remembers(r.settled, g.id)
    && !Holds(r, g.ifindex)
  }

  function Settle(r: Registry, g: Guard): Registry {
    Registry(r.armed - {g.id}, Recent(r.settled + [g], SETTLED_MEMORY))
  }

  function Disarm(r: Registry, id: GuardId): Registry {
    if id in r.armed then Settle(r, r.armed[id].(phase := Disarmed, timer := false)) else r
  }

  /** The deadline passes. A write that raised instead of reporting leaves the guard where it
      was, marked as fired. */
  function Fire(r: Registry, id: GuardId, outcome: Option<Report>): Registry {
    if id !in r.armed then r
    else
      var fired := r.armed[id].(phase := Fired, timer := false, stamped := true);
      if outcome.None? then r.(armed := r.armed[id := fired])
      else Settle(r, fired.(mutation := outcome))
  }

  /** What the registry says about a guard, without changing anything. */
  function Status(r: Registry, id: GuardId): Answer {
    if id in r.armed then Known(r.armed[id])
    else
      match Recall(r.settled, id)
      case Some(g) => Known(g)
      case None => Lost(id)
  }

  // ----------------------------------------------------------------------------- histories

  datatype Operation =
    | ArmOp(guard: Guard)
    | DisarmOp(id: GuardId)
    | StatusOp(id: GuardId)
    | FireOp(id: GuardId, outcome: Option<Report>)

  /** A registry, and everything that ever happened to it: what was armed, what settled, which
      writes were asked for, and which timers have yet to call back. Cancelling a timer does not
      always stop its callback. */
  datatype State = State(
    held: Registry,
    arms: seq<GuardId>,
    settlements: seq<Guard>,
    writes: seq<GuardId>,
    timers: multiset<GuardId>)

  const START := State(NOTHING_HELD, [], [], [], multiset{})

  function Step(s: State, op: Operation): Option<State> {
    match op
    case ArmOp(g) =>
      if !Unused(g) then None
      else if !Admits(s.held, g) then Some(s)
      else
        Some(s.(held := s.held.(armed := s.held.armed[g.id := g]),
                arms := s.arms + [g.id],
                timers := s.timers + multiset{g.id}))
    case DisarmOp(id) =>
      if id !in s.held.armed then Some(s)
      else
        Some(s.(held := Disarm(s.held, id),
                settlements := s.settlements + [s.held.armed[id].(phase := Disarmed, timer := false)]))
    case StatusOp(id) => Some(s)
    case FireOp(id, outcome) =>
      // A timer calls back once.
      if id !in s.timers then None
      else if id !in s.held.armed then Some(s.(timers := s.timers - multiset{id}))
      else
        Some(s.(held := Fire(s.held, id, outcome),
                settlements := if outcome.Some?
                               then s.settlements + [s.held.armed[id].(phase := Fired, timer := false, stamped := true,
                                                                       mutation := outcome)]
                               else s.settlements,
                writes := s.writes + [id],
                timers := s.timers - multiset{id}))
  }

  predicate Runs(s: State, ops: seq<Operation>, s': State)
    decreases |ops|
  {
    if ops == [] then s == s'
    else Step(s, ops[0]).Some? && Runs(Step(s, ops[0]).value, ops[1..], s')
  }

  ghost predicate Reachable(s: State) {
    exists ops :: Runs(START, ops, s)
  }

  function Settled(settlements: seq<Guard>, id: GuardId): nat {
    if settlements == [] then 0
    else Settled(settlements[..|settlements| - 1], id) + if settlements[|settlements| - 1].id == id then 1 else 0
  }

  function Ended(settlements: seq<Guard>, phase: Phase): nat {
    if settlements == [] then 0
    else Ended(settlements[..|settlements| - 1], phase) + if settlements[|settlements| - 1].phase == phase then 1 else 0
  }

  // ------------------------------------------------------------------------- the invariant

  predicate DistinctTargets(r: Registry) {
    forall a, b :: a in r.armed && b in r.armed && a != b ==> r.armed[a].ifindex != r.armed[b].ifindex
  }

  predicate Disjoint(r: Registry) {
    forall i :: 0 <= i < |r.settled| ==> r.settled[i].id !in r.armed
  }

  predicate Filed(r: Registry) {
    forall id :: id in r.armed ==> r.armed[id].id == id && Unsettled(r.armed[id])
  }

  predicate Unsettled(g: Guard) {
    g.phase != Disarmed && g.mutation.None? && (g.phase == Fired <==> g.stamped)
  }

  predicate Concluded(g: Guard) {
    (g.phase == Disarmed && g.mutation.None?) || (g.phase == Fired && g.mutation.Some? && g.stamped)
  }

  predicate RegistryOk(r: Registry) {
    DistinctTargets(r) && Disjoint(r) && Filed(r)
  }

  ghost predicate MemoryOk(s: State) {
    && s.held.settled == Recent(s.settlements, SETTLED_MEMORY)
    && (forall i :: 0 <= i < |s.settlements| ==> Concluded(s.settlements[i]))
  }

  ghost predicate AccountsOk(s: State) {
    && |s.arms| == |s.held.armed| + |s.settlements|
    && (forall id :: multiset(s.arms)[id] == Settled(s.settlements, id) + if id in s.held.armed then 1 else 0)
    && (forall id :: multiset(s.writes)[id] + s.timers[id] <= multiset(s.arms)[id])
  }

  ghost predicate Ok(s: State) {
    RegistryOk(s.held) && MemoryOk(s) && AccountsOk(s)
  }

  lemma SettledAppend(settlements: seq<Guard>, g: Guard, id: GuardId)
    ensures Settled(settlements + [g], id) == Settled(settlements, id) + if g.id == id then 1 else 0
  {
    assert (settlements + [g])[..|settlements|] == settlements;
  }

  lemma SettleKeepsRegistry(r: Registry, g: Guard)
    requires RegistryOk(r) && g.id in r.armed
    ensures RegistryOk(Settle(r, g))
  {
    var r' := Settle(r, g);
    forall i | 0 <= i < |r'.settled| ensures r'.settled[i].id !in r'.armed {
      var all := r.settled + [g];
      var cut := |all| - |r'.settled|;
      assert r'.settled[i] == all[cut + i];
    }
  }

  lemma SettleKeepsAccounts(s: State, g: Guard, s': State)
    requires AccountsOk(s) && g.id in s.held.armed
    requires s'.held.armed == s.held.armed - {g.id} && s'.settlements == s.settlements + [g] && s'.arms == s.arms
    requires forall id :: multiset(s'.writes)[id] + s'.timers[id] <= multiset(s.writes)[id] + s.timers[id]
    ensures AccountsOk(s')
  {
    assert |s'.held.armed| == |s.held.armed| - 1 by {
      assert s.held.armed.Keys == s'.held.armed.Keys + {g.id};
    }
    forall id ensures multiset(s'.arms)[id] == Settled(s'.settlements, id) + if id in s'.held.armed then 1 else 0 {
      SettledAppend(s.settlements, g, id);
    }
  }

  /** Settling moves a guard from what is held to what is remembered. */
  lemma SettleKeepsOk(s: State, g: Guard, s': State)
    requires Ok(s) && g.id in s.held.armed && Concluded(g)
    requires s'.held == Settle(s.held, g) && s'.settlements == s.settlements + [g] && s'.arms == s.arms
    requires forall id :: multiset(s'.writes)[id] + s'.timers[id] <= multiset(s.writes)[id] + s.timers[id]
    ensures Ok(s')
  {
    SettleKeepsRegistry(s.held, g);
    SettleKeepsAccounts(s, g, s');
    RecentAppend(s.settlements, SETTLED_MEMORY, g);
    hide RegistryOk, AccountsOk, Recent;
  }

  lemma ArmKeepsOk(s: State, g: Guard, s': State)
    requires Ok(s) && Step(s, ArmOp(g)) == Some(s')
    ensures Ok(s')
  {
    if Admits(s.held, g) {
      assert multiset(s'.arms) == multiset(s.arms) + multiset{g.id};
      assert s'.held.armed.Keys == s.held.armed.Keys + {g.id};
      forall i | 0 <= i < |s'.held.settled| ensures s'.held.settled[i].id !in s'.held.armed {
        assert s.held.settled[i].id == g.id ==> Remembers(s.held.settled, g.id);
      }
      assert DistinctTargets(s'.held);
    }
  }

  /** A write that raised leaves its guard held. */
  lemma JamKeepsOk(s: State, id: GuardId, s': State)
    requires Ok(s) && id in s.held.armed && Step(s, FireOp(id, None)) == Some(s')
    ensures Ok(s')
  {
    FireKeepsAccounts(s, id, s');
    hide MemoryOk, AccountsOk, RegistryOk, Recent;
    JamKeepsRegistry(s.held, id);
    SameSettlements(s, s');
  }

  lemma SameSettlements(s: State, s': State)
    requires MemoryOk(s) && AccountsOk(s)
    requires s'.held.settled == s.held.settled && s'.held.armed.Keys == s.held.armed.Keys
    requires s'.settlements == s.settlements && s'.arms == s.arms
    requires forall id :: multiset(s'.writes)[id] + s'.timers[id] <= multiset(s.writes)[id] + s.timers[id]
    ensures MemoryOk(s') && AccountsOk(s')
  {
    assert |s'.held.armed| == |s'.held.armed.Keys| && |s.held.armed| == |s.held.armed.Keys|;
  }

  lemma JamKeepsRegistry(r: Registry, id: GuardId)
    requires RegistryOk(r) && id in r.armed
    ensures RegistryOk(Fire(r, id, None)) && Fire(r, id, None).settled == r.settled
    ensures Fire(r, id, None).armed.Keys == r.armed.Keys
  {
    assert Fire(r, id, None).armed.Keys == r.armed.Keys;
  }

  lemma FireKeepsOk(s: State, id: GuardId, outcome: Option<Report>, s': State)
    requires Ok(s) && Step(s, FireOp(id, outcome)) == Some(s')
    ensures Ok(s')
  {
    if id in s.held.armed {
      if outcome.None? {
        JamKeepsOk(s, id, s');
      } else {
        FireKeepsAccounts(s, id, s');
        assert Filed(s.held);
        hide Ok, RegistryOk, MemoryOk, AccountsOk;
        SettleKeepsOk(s, s.held.armed[id].(phase := Fired, timer := false, stamped := true, mutation := outcome), s');
      }
    }
  }

  lemma FireKeepsAccounts(s: State, id: GuardId, s': State)
    requires id in s.timers && s'.writes == s.writes + [id] && s'.timers == s.timers - multiset{id}
    ensures forall other :: multiset(s'.writes)[other] + s'.timers[other] <= multiset(s.writes)[other] + s.timers[other]
  {
    assert multiset(s'.writes) == multiset(s.writes) + multiset{id};
  }

  lemma DisarmKeepsOk(s: State, id: GuardId, s': State)
    requires Ok(s) && Step(s, DisarmOp(id)) == Some(s')
    ensures Ok(s')
  {
    if id in s.held.armed {
      SettleKeepsOk(s, s.held.armed[id].(phase := Disarmed, timer := false), s');
    }
  }

  lemma StepKeepsOk(s: State, op: Operation, s': State)
    requires Ok(s) && Step(s, op) == Some(s')
    ensures Ok(s')
  {
    match op
    case ArmOp(g) => ArmKeepsOk(s, g, s');
    case DisarmOp(id) => DisarmKeepsOk(s, id, s');
    case StatusOp(id) =>
    case FireOp(id, outcome) => FireKeepsOk(s, id, outcome, s');
  }

  lemma {:induction false} RunsKeepOk(s: State, ops: seq<Operation>, s': State)
    requires Ok(s) && Runs(s, ops, s')
    ensures Ok(s')
    decreases |ops|
  {
    if ops != [] {
      StepKeepsOk(s, ops[0], Step(s, ops[0]).value);
      RunsKeepOk(Step(s, ops[0]).value, ops[1..], s');
    }
  }

  lemma ReachableIsOk(s: State)
    requires Reachable(s)
    ensures Ok(s)
  {
    var ops :| Runs(START, ops, s);
    RunsKeepOk(START, ops, s);
  }

  // ------------------------------------------------------------------------ what it promises

  lemma {:induction false} EndedIsAll(settlements: seq<Guard>)
    requires forall i :: 0 <= i < |settlements| ==> Concluded(settlements[i])
    ensures Ended(settlements, Disarmed) + Ended(settlements, Fired) == |settlements|
    decreases |settlements|
  {
    if settlements != [] { EndedIsAll(settlements[..|settlements| - 1]); }
  }

  /** Which settlements ended so, and how many. */
  function EndedAt(settlements: seq<Guard>, phase: Phase): set<nat> {
    set i: nat | i < |settlements| && settlements[i].phase == phase
  }

  lemma {:induction false} EndedAreCounted(settlements: seq<Guard>, phase: Phase)
    ensures Ended(settlements, phase) == |EndedAt(settlements, phase)|
    decreases |settlements|
  {
    if settlements == [] {
      assert EndedAt(settlements, phase) == {};
    } else {
      var last: nat := |settlements| - 1;
      EndedAreCounted(settlements[..last], phase);
      var before := EndedAt(settlements[..last], phase);
      assert EndedAt(settlements, phase) == if settlements[last].phase == phase then before + {last} else before;
      assert last !in before;
    }
  }

  /** Conservation: every guard ever taken on is still held, or was released, or acted; no
      guard is both held and settled; no two held guards are for one interface; and each guard
      asks for at most one write. */
  lemma GuardsAreConserved(s: State)
    requires Reachable(s)
    ensures |s.arms| == |s.held.armed|
                        + |EndedAt(s.settlements, Disarmed)| + |EndedAt(s.settlements, Fired)|
    ensures forall id :: Remembers(s.held.settled, id) ==> id !in s.held.armed
    ensures DistinctTargets(s.held)
    ensures forall id :: multiset(s.writes)[id] <= multiset(s.arms)[id]
  {
    ReachableIsOk(s);
    EndedIsAll(s.settlements);
    EndedAreCounted(s.settlements, Disarmed);
    EndedAreCounted(s.settlements, Fired);
  }

  /** The memory is exact: the most recent settlements in order, never more than its size. */
  lemma MemoryIsExact(s: State)
    requires Reachable(s)
    ensures |s.held.settled| <= SETTLED_MEMORY
    ensures s.held.settled == Recent(s.settlements, SETTLED_MEMORY)
  {
    ReachableIsOk(s);
  }

  lemma {:induction false} SettledSomewhere(settlements: seq<Guard>, id: GuardId) returns (k: nat)
    requires Settled(settlements, id) > 0
    ensures k < |settlements| && settlements[k].id == id
    decreases |settlements|
  {
    k := |settlements| - 1;
    if settlements[k].id != id { k := SettledSomewhere(settlements[..k], id); }
  }

  /** A guard that was once held is answered "lost" only when it settled and at least as many
      others as the memory holds have settled since. */
  lemma LostMeansForgotten(s: State, id: GuardId) returns (k: nat)
    requires Reachable(s) && id in s.arms && Status(s.held, id).Lost?
    ensures k < |s.settlements| && s.settlements[k].id == id
    ensures |s.settlements| - 1 - k >= SETTLED_MEMORY
  {
    ReachableIsOk(s);
    assert id in multiset(s.arms);
    assert id !in s.held.armed && !Remembers(s.held.settled, id);
    assert Settled(s.settlements, id) > 0;
    assert s.held.settled == Recent(s.settlements, SETTLED_MEMORY);
    hide Ok, Settled, Status;
    k := SettledSomewhere(s.settlements, id);
    ForgottenIsOld(s.settlements, id, k);
  }

  lemma ForgottenIsOld(settlements: seq<Guard>, id: GuardId, k: nat)
    requires k < |settlements| && settlements[k].id == id
    requires !Remembers(Recent(settlements, SETTLED_MEMORY), id)
    ensures |settlements| - 1 - k >= SETTLED_MEMORY
  {
    var recent := Recent(settlements, SETTLED_MEMORY);
    var cut := |settlements| - |recent|;
    assert forall j :: 0 <= j < |recent| ==> recent[j].id != id;
    assert forall i :: cut <= i < |settlements| ==> settlements[i] == recent[i - cut];
  }

  lemma RecentAreConcluded(settlements: seq<Guard>, size: nat, g: Guard)
    requires forall i :: 0 <= i < |settlements| ==> Concluded(settlements[i])
    requires g in Recent(settlements, size)
    ensures Concluded(g)
  {
    hide Concluded;
    assert g in settlements;
  }

  lemma RecalledIsConcluded(s: State, id: GuardId)
    requires Reachable(s) && Recall(s.held.settled, id).Some?
    ensures Concluded(Recall(s.held.settled, id).value)
  {
    ReachableIsOk(s);
    hide Reachable, Recall, RegistryOk, AccountsOk, Concluded, Recent;
    RecentAreConcluded(s.settlements, SETTLED_MEMORY, Recall(s.held.settled, id).value);
  }

  /** The guard's own write raised, and it was left where it was. */
  predicate Jammed(r: Registry, id: GuardId) {
    id in r.armed && r.armed[id].phase == Fired
  }

  predicate NoneRaised(ops: seq<Operation>) {
    forall i :: 0 <= i < |ops| ==> !(ops[i].FireOp? && ops[i].outcome.None?)
  }

  /** An answer shows a guard that fired without saying what came of it exactly while it is still
      held, marked as fired. */
  lemma FiredWithoutOutcomeIsJammed(s: State, id: GuardId)
    requires Reachable(s)
    ensures ShowsNoOutcome(s, id) <==> Jammed(s.held, id)
  {
    ReachableIsOk(s);
    if id !in s.held.armed && Recall(s.held.settled, id).Some? { RecalledIsConcluded(s, id); }
  }

  predicate ShowsNoOutcome(s: State, id: GuardId) {
    var answer := Status(s.held, id);
    answer.Known? && answer.guard.phase == Fired && answer.guard.mutation.None?
  }

  lemma {:induction false} NothingRaisedNothingJammed(s: State, ops: seq<Operation>, s': State)
    requires (forall id :: !Jammed(s.held, id)) && Runs(s, ops, s') && NoneRaised(ops)
    ensures forall id :: !Jammed(s'.held, id)
    decreases |ops|
  {
    if ops != [] {
      var next := Step(s, ops[0]).value;
      assert !(ops[0].FireOp? && ops[0].outcome.None?);
      forall id ensures !Jammed(next.held, id) { assert !Jammed(s.held, id); }
      NothingRaisedNothingJammed(next, ops[1..], s');
    }
  }

  // ----- what a raise does, over whole histories

  /** Every run ends with a last operation. */
  lemma {:induction false} RunsEndWith(s: State, ops: seq<Operation>, s': State) returns (before: State)
    requires Runs(s, ops, s') && ops != []
    ensures Runs(s, ops[..|ops| - 1], before) && Step(before, ops[|ops| - 1]) == Some(s')
    decreases |ops|
  {
    hide Step;
    var next := Step(s, ops[0]).value;
    if |ops| == 1 {
      before := s;
    } else {
      before := RunsEndWith(next, ops[1..], s');
      assert ops[1..][..|ops| - 2] == ops[..|ops| - 1][1..];
    }
  }

  lemma {:induction false} RunsAreDetermined(s: State, ops: seq<Operation>, s1: State, s2: State)
    requires Runs(s, ops, s1) && Runs(s, ops, s2)
    ensures s1 == s2
    decreases |ops|
  {
    hide Step;
    if ops != [] { RunsAreDetermined(Step(s, ops[0]).value, ops[1..], s1, s2); }
  }

  /** The `i`-th operation was this guard's deadline, it was held, and its write raised. */
  ghost predicate RaisedAt(ops: seq<Operation>, i: nat, id: GuardId) {
    && i < |ops|
    && ops[i] == FireOp(id, None)
    && exists before :: Runs(START, ops[..i], before) && id in before.held.armed
  }

  /** Anything that takes a held guard out of the registry. */
  predicate Ends(op: Operation, id: GuardId) {
    op == DisarmOp(id) || (op.FireOp? && op.id == id && op.outcome.Some?)
  }

  /** Its write raised, and nothing has ended it since. */
  ghost predicate RaisedAndLeft(ops: seq<Operation>, id: GuardId) {
    exists i: nat :: RaisedAt(ops, i, id) && forall j :: i < j < |ops| ==> !Ends(ops[j], id)
  }

  /** What the last operation adds to a history. */
  lemma RaisedAtEnd(ops: seq<Operation>, before: State, i: nat, id: GuardId)
    requires ops != [] && Runs(START, ops[..|ops| - 1], before)
    ensures i < |ops| - 1 ==> (RaisedAt(ops, i, id) <==> RaisedAt(ops[..|ops| - 1], i, id))
    ensures i == |ops| - 1 ==> (RaisedAt(ops, i, id) <==> ops[i] == FireOp(id, None) && id in before.held.armed)
  {
    hide Runs;
    if i < |ops| - 1 { assert ops[..|ops| - 1][..i] == ops[..i]; }
    if i == |ops| - 1 {
      forall other | Runs(START, ops[..i], other) ensures other == before {
        RunsAreDetermined(START, ops[..i], other, before);
      }
    }
  }

  lemma RaisedAndLeftAtEnd(ops: seq<Operation>, before: State, id: GuardId)
    requires ops != [] && Runs(START, ops[..|ops| - 1], before)
    ensures RaisedAndLeft(ops, id)
            <==> || (ops[|ops| - 1] == FireOp(id, None) && id in before.held.armed)
                 || (RaisedAndLeft(ops[..|ops| - 1], id) && !Ends(ops[|ops| - 1], id))
  {
    var last := |ops| - 1;
    hide Runs, RaisedAt, Ends;
    RaisedAtEnd(ops, before, last, id);
    if RaisedAndLeft(ops[..last], id) && !Ends(ops[last], id) {
      var i: nat :| RaisedAt(ops[..last], i, id) && forall j :: i < j < last ==> !Ends(ops[..last][j], id);
      InHistory(ops[..last], i, id);
      RaisedAtEnd(ops, before, i, id);
      forall j | i < j < |ops| ensures !Ends(ops[j], id) { if j < last { assert ops[..last][j] == ops[j]; } }
    }
    if RaisedAndLeft(ops, id) {
      var i: nat :| RaisedAt(ops, i, id) && forall j :: i < j < |ops| ==> !Ends(ops[j], id);
      InHistory(ops, i, id);
      RaisedAtEnd(ops, before, i, id);
      if i < last {
        assert !Ends(ops[last], id);
        forall j | i < j < last ensures !Ends(ops[..last][j], id) { assert ops[..last][j] == ops[j]; }
      }
    }
  }

  lemma InHistory(ops: seq<Operation>, i: nat, id: GuardId)
    requires RaisedAt(ops, i, id)
    ensures i < |ops|
  {
  }

  lemma JamStep(before: State, op: Operation, s: State, id: GuardId)
    requires Step(before, op) == Some(s) && Filed(before.held)
    ensures Jammed(s.held, id)
            <==> || (op == FireOp(id, None) && id in before.held.armed)
                 || (Jammed(before.held, id) && !Ends(op, id))
  {
    hide Recent;
  }

  lemma {:induction false} JammedIff(ops: seq<Operation>, s: State, id: GuardId)
    requires Runs(START, ops, s)
    ensures Jammed(s.held, id) <==> RaisedAndLeft(ops, id)
    decreases |ops|
  {
    if ops != [] {
      var before := RunsEndWith(START, ops, s);
      JammedIff(ops[..|ops| - 1], before, id);
      RunsKeepOk(START, ops[..|ops| - 1], before);
      RaisedAndLeftAtEnd(ops, before, id);
      assert Filed(before.held);
      JamStep(before, ops[|ops| - 1], s, id);
      hide *;
    }
  }

  /** An answer shows a guard that fired without saying what came of it exactly when, in its
      history, its write raised and nothing has ended it since. */
  lemma FiredWithoutOutcomeIff(ops: seq<Operation>, s: State, id: GuardId)
    requires Runs(START, ops, s)
    ensures ShowsNoOutcome(s, id) <==> RaisedAndLeft(ops, id)
  {
    assert Reachable(s);
    FiredWithoutOutcomeIsJammed(s, id);
    JammedIff(ops, s, id);
    hide *;
  }

  // ----- what a disarm hides

  /** Its write raised, and it was disarmed after that. */
  ghost predicate RaisedThenDisarmed(ops: seq<Operation>, id: GuardId) {
    exists i: nat, k: nat :: RaisedAt(ops, i, id) && i < k < |ops| && ops[k] == DisarmOp(id)
  }

  /** It was released although its write had been asked for. */
  ghost predicate HiddenWrite(s: State, id: GuardId) {
    && id in s.writes
    && exists m :: 0 <= m < |s.settlements| && s.settlements[m].id == id && s.settlements[m].phase == Disarmed
  }

  /** Some deadline of it raised. */
  ghost predicate EverRaised(ops: seq<Operation>, id: GuardId) {
    exists i: nat :: RaisedAt(ops, i, id)
  }

  lemma {:induction false} SettledCounts(settlements: seq<Guard>, id: GuardId, k: nat)
    requires k < |settlements| && settlements[k].id == id
    ensures Settled(settlements, id) >= 1
    decreases |settlements|
  {
    if k < |settlements| - 1 { SettledCounts(settlements[..|settlements| - 1], id, k); }
  }

  lemma {:induction false} SettledOnce(settlements: seq<Guard>, id: GuardId, j: nat, k: nat)
    requires j < k < |settlements| && settlements[j].id == id && settlements[k].id == id
    ensures Settled(settlements, id) >= 2
    decreases |settlements|
  {
    var last := |settlements| - 1;
    if k < last { SettledOnce(settlements[..last], id, j, k); }
    else { SettledCounts(settlements[..last], id, j); }
  }

  /** A guard held under an identifier that was armed once has not settled, and its deadline does
      not come twice. */
  lemma ArmedOnce(s: State, id: GuardId)
    requires Ok(s) && multiset(s.arms)[id] <= 1
    ensures id in s.held.armed ==> forall k :: 0 <= k < |s.settlements| ==> s.settlements[k].id != id
    ensures id in s.writes ==> id !in s.timers
  {
    assert AccountsOk(s);
    forall k | 0 <= k < |s.settlements| && id in s.held.armed ensures s.settlements[k].id != id {
      if s.settlements[k].id == id { SettledCounts(s.settlements, id, k); }
    }
    if id in s.writes { assert multiset(s.writes)[id] >= 1; }
  }

  lemma ArmsOnlyGrow(before: State, op: Operation, s: State, id: GuardId)
    requires Step(before, op) == Some(s)
    ensures multiset(before.arms)[id] <= multiset(s.arms)[id]
    ensures op.ArmOp? && op.guard.id == id && s != before ==> multiset(before.arms)[id] < multiset(s.arms)[id]
    ensures id in before.writes ==> id in s.writes
  {
    hide Fire, Disarm;
    if op.ArmOp? { assert multiset(before.arms + [op.guard.id]) == multiset(before.arms) + multiset{op.guard.id}; }
  }

  /** Of a guard armed once and still held, the write was asked for exactly if it is marked. */
  predicate MarkedIfWritten(s: State, id: GuardId) {
    id in s.held.armed ==> (id in s.writes <==> s.held.armed[id].phase == Fired)
  }

  /** Of a guard that was released, the time of its firing says whether the write was asked for. */
  predicate StampTells(s: State, id: GuardId) {
    forall m :: 0 <= m < |s.settlements| && s.settlements[m].id == id && s.settlements[m].phase == Disarmed
                ==> (s.settlements[m].stamped <==> id in s.writes)
  }

  predicate About(op: Operation, id: GuardId) {
    match op
    case ArmOp(g) => g.id == id
    case DisarmOp(other) => other == id
    case StatusOp(other) => false
    case FireOp(other, outcome) => other == id
  }

  /** One guard's part of the state. */
  predicate SameFor(before: State, s: State, id: GuardId) {
    && (id in s.held.armed <==> id in before.held.armed)
    && (id in s.held.armed ==> s.held.armed[id] == before.held.armed[id])
    && (id in s.writes <==> id in before.writes)
    && |before.settlements| <= |s.settlements|
    && s.settlements[..|before.settlements|] == before.settlements
    && forall m :: |before.settlements| <= m < |s.settlements| ==> s.settlements[m].id != id
  }

  lemma OthersAreNotMoved(before: State, op: Operation, s: State, id: GuardId)
    requires Step(before, op) == Some(s) && Filed(before.held) && !About(op, id)
    ensures SameFor(before, s, id)
  {
    hide Recent, Admits;
  }

  lemma MarkStep(before: State, op: Operation, s: State, id: GuardId)
    requires Step(before, op) == Some(s) && Ok(before) && multiset(s.arms)[id] <= 1
    requires MarkedIfWritten(before, id)
    ensures MarkedIfWritten(s, id)
  {
    ArmsOnlyGrow(before, op, s, id);
    assert Filed(before.held);
    if !About(op, id) {
      OthersAreNotMoved(before, op, s, id);
      hide Step, Ok;
    } else if op.ArmOp? {
      if s != before { NeverArmedNeverWritten(before, id); }
      hide Ok, Recent, Admits;
    } else {
      hide Ok, Recent;
    }
  }

  lemma NeverArmedNeverWritten(s: State, id: GuardId)
    requires Ok(s) && multiset(s.arms)[id] == 0
    ensures id !in s.writes
  {
    assert AccountsOk(s);
    assert multiset(s.writes)[id] == 0;
  }

  lemma StampAtSettlement(before: State, op: Operation, s: State, id: GuardId)
    requires Step(before, op) == Some(s) && About(op, id) && id in before.held.armed && Unsettled(before.held.armed[id])
    requires MarkedIfWritten(before, id)
    requires forall k :: 0 <= k < |before.settlements| ==> before.settlements[k].id != id
    ensures StampTells(s, id)
  {
    hide Fire, Disarm, Admits;
  }

  lemma NothingSettles(before: State, op: Operation, s: State, id: GuardId)
    requires Step(before, op) == Some(s) && About(op, id) && id !in before.held.armed
    ensures s.settlements == before.settlements && s.writes == before.writes
  {
    hide Admits;
  }

  lemma StampIsSame(before: State, s: State, id: GuardId)
    requires StampTells(before, id) && (id in s.writes <==> id in before.writes)
    requires |before.settlements| <= |s.settlements| && s.settlements[..|before.settlements|] == before.settlements
    requires forall m :: |before.settlements| <= m < |s.settlements| ==> s.settlements[m].id != id
    ensures StampTells(s, id)
  {
    assert forall m :: 0 <= m < |before.settlements| ==> s.settlements[m] == before.settlements[m];
  }

  lemma StampStep(before: State, op: Operation, s: State, id: GuardId)
    requires Step(before, op) == Some(s) && Ok(before) && multiset(s.arms)[id] <= 1
    requires MarkedIfWritten(before, id) && StampTells(before, id)
    ensures StampTells(s, id)
  {
    ArmsOnlyGrow(before, op, s, id);
    ArmedOnce(before, id);
    assert Filed(before.held);
    if !About(op, id) {
      OthersAreNotMoved(before, op, s, id);
      hide Step, Ok, Filed, About, MarkedIfWritten, StampTells;
      StampIsSame(before, s, id);
    } else if id in before.held.armed {
      StampAtSettlement(before, op, s, id);
      hide *;
    } else {
      NothingSettles(before, op, s, id);
      hide Step, Ok, Filed, About, MarkedIfWritten, StampTells;
      StampIsSame(before, s, id);
    }
  }

  lemma {:induction false} MarkedIsWritten(ops: seq<Operation>, s: State, id: GuardId)
    requires Runs(START, ops, s) && multiset(s.arms)[id] <= 1
    ensures Ok(s) && MarkedIfWritten(s, id) && StampTells(s, id)
    decreases |ops|
  {
    RunsKeepOk(START, ops, s);
    if ops != [] {
      var before := RunsEndWith(START, ops, s);
      ArmsOnlyGrow(before, ops[|ops| - 1], s, id);
      MarkedIsWritten(ops[..|ops| - 1], before, id);
      MarkStep(before, ops[|ops| - 1], s, id);
      StampStep(before, ops[|ops| - 1], s, id);
      hide *;
    }
  }

  lemma HiddenStep(before: State, op: Operation, s: State, id: GuardId)
    requires Step(before, op) == Some(s) && Ok(before) && multiset(s.arms)[id] <= 1 && MarkedIfWritten(before, id)
    ensures HiddenWrite(s, id) <==> HiddenWrite(before, id) || (op == DisarmOp(id) && Jammed(before.held, id))
    ensures Jammed(before.held, id) ==> Jammed(s.held, id) || op == DisarmOp(id)
  {
    ArmsOnlyGrow(before, op, s, id);
    ArmedOnce(before, id);
    assert Filed(before.held);
    if !About(op, id) {
      OthersAreNotMoved(before, op, s, id);
      hide Step, Ok;
      HiddenIsSame(before, s, id);
    } else if op == DisarmOp(id) && id in before.held.armed {
      var g := before.held.armed[id].(phase := Disarmed, timer := false);
      assert s.settlements == before.settlements + [g] && s.writes == before.writes;
      hide Step, Ok;
      HiddenByDisarm(before, s, id, g);
    } else if op.FireOp? && id in before.held.armed {
      FiredIsNotHidden(before, op, s, id);
      hide Ok, Recent;
    } else {
      assert s.settlements == before.settlements && s.writes == before.writes;
      hide Ok, Recent, Admits;
      HiddenIsSame(before, s, id);
    }
  }

  lemma HiddenIsSame(before: State, s: State, id: GuardId)
    requires id in s.writes <==> id in before.writes
    requires |before.settlements| <= |s.settlements| && s.settlements[..|before.settlements|] == before.settlements
    requires forall m :: |before.settlements| <= m < |s.settlements| ==> s.settlements[m].id != id
    ensures HiddenWrite(s, id) <==> HiddenWrite(before, id)
  {
    assert forall m :: 0 <= m < |before.settlements| ==> s.settlements[m] == before.settlements[m];
    if HiddenWrite(before, id) {
      var m :|
        0 <= m < |before.settlements| && before.settlements[m].id == id && before.settlements[m].phase == Disarmed;
      assert s.settlements[m].id == id;
    }
  }

  lemma HiddenByDisarm(before: State, s: State, id: GuardId, g: Guard)
    requires s.settlements == before.settlements + [g] && s.writes == before.writes
    requires g.id == id && g.phase == Disarmed && id in before.held.armed && MarkedIfWritten(before, id)
    requires forall k :: 0 <= k < |before.settlements| ==> before.settlements[k].id != id
    ensures HiddenWrite(s, id) <==> Jammed(before.held, id)
    ensures !HiddenWrite(before, id)
  {
    assert s.settlements[|before.settlements|] == g;
  }

  lemma FiredIsNotHidden(before: State, op: Operation, s: State, id: GuardId)
    requires Step(before, op) == Some(s) && op.FireOp? && op.id == id && id in before.held.armed
    requires forall k :: 0 <= k < |before.settlements| ==> before.settlements[k].id != id
    requires id in before.writes ==> id !in before.timers
    requires MarkedIfWritten(before, id)
    ensures !HiddenWrite(s, id) && !HiddenWrite(before, id) && !Jammed(before.held, id)
  {
    hide Fire;
  }

  lemma EverRaisedAtEnd(ops: seq<Operation>, before: State, id: GuardId)
    requires ops != [] && Runs(START, ops[..|ops| - 1], before)
    ensures EverRaised(ops, id)
            <==> EverRaised(ops[..|ops| - 1], id) || (ops[|ops| - 1] == FireOp(id, None) && id in before.held.armed)
  {
    var last := |ops| - 1;
    hide Runs, RaisedAt;
    RaisedAtEnd(ops, before, last, id);
    if i: nat :| RaisedAt(ops, i, id) {
      InHistory(ops, i, id);
      RaisedAtEnd(ops, before, i, id);
    }
    if i: nat :| RaisedAt(ops[..last], i, id) {
      InHistory(ops[..last], i, id);
      RaisedAtEnd(ops, before, i, id);
    }
  }

  lemma RaisedThenDisarmedAtEnd(ops: seq<Operation>, before: State, id: GuardId)
    requires ops != [] && Runs(START, ops[..|ops| - 1], before)
    ensures RaisedThenDisarmed(ops, id)
            <==> || RaisedThenDisarmed(ops[..|ops| - 1], id)
                 || (ops[|ops| - 1] == DisarmOp(id) && EverRaised(ops[..|ops| - 1], id))
  {
    var last := |ops| - 1;
    hide Runs, RaisedAt;
    if RaisedThenDisarmed(ops[..last], id) {
      var i: nat, k: nat :| RaisedAt(ops[..last], i, id) && i < k < last && ops[..last][k] == DisarmOp(id);
      RaisedAtEnd(ops, before, i, id);
      assert ops[k] == DisarmOp(id);
    }
    if ops[last] == DisarmOp(id) && EverRaised(ops[..last], id) {
      var i: nat :| RaisedAt(ops[..last], i, id);
      InHistory(ops[..last], i, id);
      RaisedAtEnd(ops, before, i, id);
    }
    if RaisedThenDisarmed(ops, id) {
      var i: nat, k: nat :| RaisedAt(ops, i, id) && i < k < |ops| && ops[k] == DisarmOp(id);
      RaisedAtEnd(ops, before, i, id);
      if k < last { assert ops[..last][k] == DisarmOp(id); }
    }
  }

  lemma {:induction false} HiddenIff(ops: seq<Operation>, s: State, id: GuardId)
    requires Runs(START, ops, s) && multiset(s.arms)[id] <= 1
    ensures EverRaised(ops, id) ==> Jammed(s.held, id) || HiddenWrite(s, id)
    ensures Jammed(s.held, id) ==> EverRaised(ops, id)
    ensures HiddenWrite(s, id) <==> RaisedThenDisarmed(ops, id)
    decreases |ops|
  {
    if ops != [] {
      var before := RunsEndWith(START, ops, s);
      var op := ops[|ops| - 1];
      ArmsOnlyGrow(before, op, s, id);
      HiddenIff(ops[..|ops| - 1], before, id);
      MarkedIsWritten(ops[..|ops| - 1], before, id);
      HiddenStep(before, op, s, id);
      EverRaisedAtEnd(ops, before, id);
      RaisedThenDisarmedAtEnd(ops, before, id);
      assert Filed(before.held);
      JamStep(before, op, s, id);
      hide *;
    }
  }

  lemma OnlySettlement(s: State, id: GuardId, k: nat)
    requires AccountsOk(s) && multiset(s.arms)[id] <= 1 && k < |s.settlements| && s.settlements[k].id == id
    ensures forall m :: 0 <= m < |s.settlements| && s.settlements[m].id == id ==> m == k
  {
    assert Settled(s.settlements, id) <= 1;
    hide AccountsOk;
    forall m | 0 <= m < |s.settlements| && s.settlements[m].id == id ensures m == k {
      if m < k { SettledOnce(s.settlements, id, m, k); }
      if k < m { SettledOnce(s.settlements, id, k, m); }
    }
  }

  lemma RecentIsPlaced(settlements: seq<Guard>, g: Guard) returns (k: nat)
    requires g in Recent(settlements, SETTLED_MEMORY)
    ensures k < |settlements| && settlements[k] == g
  {
    var recent := Recent(settlements, SETTLED_MEMORY);
    var i :| 0 <= i < |recent| && recent[i] == g;
    k := |settlements| - |recent| + i;
  }

  lemma RememberedIsTheSettlement(s: State, id: GuardId)
    requires Ok(s) && multiset(s.arms)[id] <= 1 && Remembers(s.held.settled, id)
    ensures Status(s.held, id).Known?
    ensures (Status(s.held, id).guard.phase == Disarmed && id in s.writes) <==> HiddenWrite(s, id)
    ensures StampTells(s, id) ==> (HeldAs(s.held, id) == WritePath.DisarmedOver <==> HiddenWrite(s, id))
  {
    assert Disjoint(s.held) && MemoryOk(s) && AccountsOk(s);
    hide Ok, RegistryOk, AccountsOk, Recent;
    var g := Recall(s.held.settled, id).value;
    assert id !in s.held.armed;
    var k := RecentIsPlaced(s.settlements, g);
    OnlySettlement(s, id, k);
    hide Recall, MemoryOk, Disjoint;
  }

  /** A settled guard whose identifier was armed once, as they all are, is answered as disarmed
      although its write was asked for exactly when, in its history, that write raised and the
      disarm came after. It is the one answer of the registry whose phase does not tell what the
      guard did; the time of its firing, which stays in the answer, does. */
  lemma DisarmHidesAJammedWriteIff(ops: seq<Operation>, s: State, id: GuardId)
    requires Runs(START, ops, s) && multiset(s.arms)[id] <= 1 && Remembers(s.held.settled, id)
    ensures Status(s.held, id).Known?
    ensures (Status(s.held, id).guard.phase == Disarmed && id in s.writes) <==> RaisedThenDisarmed(ops, id)
    ensures HeldAs(s.held, id) == WritePath.DisarmedOver <==> RaisedThenDisarmed(ops, id)
  {
    MarkedIsWritten(ops, s, id);
    RememberedIsTheSettlement(s, id);
    HiddenIff(ops, s, id);
    hide *;
  }

  /** And there is such a history, passing through a guard that fired and cannot say what came
      of it. */
  lemma DisarmHidesAJammedWrite() returns (jammed: State, s: State, id: GuardId)
    ensures Reachable(jammed) && ShowsNoOutcome(jammed, id)
    ensures Step(jammed, DisarmOp(id)) == Some(s) && Reachable(s) && id in s.writes
    ensures Status(s.held, id).Known? && Status(s.held, id).guard.phase == Disarmed
  {
    id := "g";
    var g := Guard(id, "a", 1, None, 9000, 1500, 60, Armed, None, true, false);
    var s1 := Step(START, ArmOp(g)).value;
    jammed := Step(s1, FireOp(id, None)).value;
    s := Step(jammed, DisarmOp(id)).value;
    var ops := [ArmOp(g), FireOp(id, None), DisarmOp(id)];
    assert ops[1..] == [FireOp(id, None), DisarmOp(id)] && ops[1..][1..] == [DisarmOp(id)];
    assert Runs(jammed, [DisarmOp(id)], s);
    assert Runs(s1, ops[1..], s);
    assert Runs(START, ops, s);
    assert [ArmOp(g), FireOp(id, None)][1..] == [FireOp(id, None)];
    assert Runs(s1, [FireOp(id, None)], jammed);
    assert Runs(START, [ArmOp(g), FireOp(id, None)], jammed);
    assert s.held.settled == [g.(phase := Disarmed, timer := false, stamped := true)];
  }

  // ------------------------------------------------- what the write path takes the agent to be

  /** One guard of a registry, as the write path sees it. */
  function HeldAs(r: Registry, id: GuardId): WritePath.Held {
    match Status(r, id)
    case Known(g) =>
      if g.phase == Armed then WritePath.Armed
      else if g.phase == Disarmed then if g.stamped then WritePath.DisarmedOver else WritePath.Disarmed
      else if g.mutation.Some? then WritePath.Fired(g.mutation.value)
      else WritePath.Raised
    case _ => WritePath.NotHeld
  }

  /** As the backend reads it: a guard that fired and cannot say what came of it may have written. */
  function AsReport(answer: Answer): WritePath.GuardReport {
    match answer
    case Known(g) =>
      WritePath.GuardReport(
        match g.phase
        case Armed => WritePath.PhaseArmed
        case Disarmed => WritePath.PhaseDisarmed
        case Fired => WritePath.PhaseFired,
        if g.phase == Fired && g.mutation.None? then Some(WritePath.Report(WriteUnknown, false)) else g.mutation)
    case _ => WritePath.GuardReport(WritePath.PhaseLost, None)
  }

  /** A registry answers as the write path assumes an agent does, raised writes included. */
  lemma StatusIsHonest(s: State, id: GuardId)
    requires Reachable(s)
    ensures WritePath.HonestReport(HeldAs(s.held, id), AsReport(Status(s.held, id)))
  {
    ReachableIsOk(s);
    if id !in s.held.armed && Recall(s.held.settled, id).Some? { RecalledIsConcluded(s, id); }
  }

  /** What one operation may do to one guard. */
  predicate Moves(was: WritePath.Held, now: WritePath.Held, op: Operation, id: GuardId) {
    || now == was
    || (op.ArmOp? && op.guard.id == id && was == WritePath.NotHeld && now == WritePath.Armed)
    || (op == DisarmOp(id) && now == WritePath.Disarming(was))
    || (op.FireOp? && op.id == id && was == WritePath.Armed
        && now == if op.outcome.Some? then WritePath.Fired(op.outcome.value) else WritePath.Raised)
       // Other guards settling may push this one out of memory.
    || (was in {WritePath.Disarmed, WritePath.DisarmedOver} && now == WritePath.NotHeld)
    || (was.Fired? && now == WritePath.NotHeld)
  }

  lemma RecallOfRecent(settled: seq<Guard>, g: Guard, id: GuardId)
    requires |settled| <= SETTLED_MEMORY
    requires g.id != id
    ensures Recall(Recent(settled + [g], SETTLED_MEMORY), id) in {Recall(settled, id), None}
  {
    var all := settled + [g];
    assert all[..|settled|] == settled;
    assert Recall(all, id) == Recall(settled, id);
    if |all| > SETTLED_MEMORY {
      assert Recent(all, SETTLED_MEMORY) == all[1..];
      RecallOfTail(all, id);
    }
  }

  lemma {:induction false} RecallOfTail(settled: seq<Guard>, id: GuardId)
    requires settled != []
    ensures Recall(settled[1..], id) in {Recall(settled, id), None}
    decreases |settled|
  {
    var last := |settled| - 1;
    if last > 0 && settled[last].id != id {
      assert settled[1..][..last - 1] == settled[..last][1..];
      RecallOfTail(settled[..last], id);
    }
  }

  lemma SettleMovesOthers(r: Registry, g: Guard, id: GuardId)
    requires RegistryOk(r) && |r.settled| <= SETTLED_MEMORY && g.id != id && g.id in r.armed
    ensures HeldAs(Settle(r, g), id) in {HeldAs(r, id), WritePath.NotHeld}
    ensures id in r.armed ==> HeldAs(Settle(r, g), id) == HeldAs(r, id)
  {
    RecallOfRecent(r.settled, g, id);
  }

  lemma SettleMovesItself(r: Registry, g: Guard)
    requires |r.settled| <= SETTLED_MEMORY
    ensures Status(Settle(r, g), g.id) == Known(g)
  {
    var all := r.settled + [g];
    assert Recent(all, SETTLED_MEMORY)[|Recent(all, SETTLED_MEMORY)| - 1] == g;
  }

  lemma SettlingMoves(s: State, g: Guard, id: GuardId)
    requires Ok(s) && g.id in s.held.armed
    ensures g.id == id ==> Status(Settle(s.held, g), id) == Known(g)
    ensures g.id != id ==> HeldAs(Settle(s.held, g), id) in {HeldAs(s.held, id), WritePath.NotHeld}
    ensures g.id != id && id in s.held.armed ==> HeldAs(Settle(s.held, g), id) == HeldAs(s.held, id)
  {
    assert MemoryOk(s) && RegistryOk(s.held);
    hide Ok, RegistryOk, HeldAs, Status, Settle;
    SettleMovesItself(s.held, g);
    if g.id != id { SettleMovesOthers(s.held, g, id); }
  }

  lemma HeldOrSettled(s: State, id: GuardId)
    requires Reachable(s)
    ensures id in s.held.armed ==> HeldAs(s.held, id) in {WritePath.Armed, WritePath.Raised}
    ensures id !in s.held.armed && !HeldAs(s.held, id).Fired? ==>
              HeldAs(s.held, id) in {WritePath.Disarmed, WritePath.DisarmedOver, WritePath.NotHeld}
  {
    ReachableIsOk(s);
    if id !in s.held.armed && Recall(s.held.settled, id).Some? { RecalledIsConcluded(s, id); }
    assert Filed(s.held);
    hide Reachable, Ok, Recall;
  }

  lemma ArmMoves(s: State, g: Guard, s': State, id: GuardId)
    requires Step(s, ArmOp(g)) == Some(s') && g.id != id
    ensures HeldAs(s'.held, id) == HeldAs(s.held, id)
  {
    hide Recall, Admits;
  }

  lemma DisarmMoves(s: State, other: GuardId, id: GuardId)
    requires Ok(s) && other in s.held.armed
    ensures other == id ==> HeldAs(Disarm(s.held, other), id) == WritePath.Disarming(HeldAs(s.held, id))
    ensures other != id ==> HeldAs(Disarm(s.held, other), id) in {HeldAs(s.held, id), WritePath.NotHeld}
    ensures other != id && id in s.held.armed ==> HeldAs(Disarm(s.held, other), id) == HeldAs(s.held, id)
  {
    var g := s.held.armed[other].(phase := Disarmed, timer := false);
    assert Filed(s.held);
    SettlingMoves(s, g, id);
    hide Ok, Recall, Settle;
  }

  lemma FireMoves(s: State, other: GuardId, outcome: Option<Report>, id: GuardId)
    requires Ok(s) && other in s.held.armed
    ensures other == id ==> HeldAs(Fire(s.held, other, outcome), id)
                            == if outcome.Some? then WritePath.Fired(outcome.value) else WritePath.Raised
    ensures other != id ==> HeldAs(Fire(s.held, other, outcome), id) in {HeldAs(s.held, id), WritePath.NotHeld}
    ensures other != id && id in s.held.armed ==> HeldAs(Fire(s.held, other, outcome), id) == HeldAs(s.held, id)
  {
    var g := s.held.armed[other].(phase := Fired, timer := false, stamped := true, mutation := outcome);
    assert Filed(s.held);
    if outcome.Some? { SettlingMoves(s, g, id); }
    hide Ok, Recall, Settle;
  }

  /** A guard whose own write raised is not fired again. */
  lemma RaisedFiresOnce(s: State, id: GuardId)
    requires Reachable(s) && multiset(s.arms)[id] <= 1 && Jammed(s.held, id)
    ensures id !in s.timers
  {
    var ops :| Runs(START, ops, s);
    MarkedIsWritten(ops, s, id);
    ArmedOnce(s, id);
  }

  /** Every operation moves every guard whose identifier was armed once only as the write path
      allows an agent to move it. */
  lemma OperationsMoveGuardsOneWay(s: State, op: Operation, s': State, id: GuardId)
    requires Reachable(s) && Step(s, op) == Some(s') && multiset(s.arms)[id] <= 1
    ensures Moves(HeldAs(s.held, id), HeldAs(s'.held, id), op, id)
  {
    ReachableIsOk(s);
    if Jammed(s.held, id) { RaisedFiresOnce(s, id); }
    HeldOrSettled(s, id);
    hide Reachable, Runs, Ok, Filed, Recall, Recent, Fire, Disarm;
    match op {
      case DisarmOp(other) =>
        if other in s.held.armed { DisarmMoves(s, other, id); }
      case FireOp(other, outcome) =>
        if other in s.held.armed { FireMoves(s, other, outcome, id); }
      case ArmOp(g) =>
        hide Admits;
        if g.id != id { ArmMoves(s, g, s', id); }
      case StatusOp(_) =>
    }
  }

  // ------------------------------------------------------------------------- the registry itself

  lemma UntimedIsOk(r: Registry, r': Registry)
    requires RegistryOk(r) && r'.settled == r.settled && r'.armed.Keys == r.armed.Keys
    requires forall id :: id in r'.armed ==> r'.armed[id] == r.armed[id].(timer := false)
    ensures RegistryOk(r')
  {
  }

  /** The registry, updated in place. One lock covers each operation, so each is one step. The
      clock, the timers and the write itself belong to the caller: `OnDeadline` is told what the
      write reported, or that it raised. */
  class GuardHolder {
    var armed: map<GuardId, Guard>
    var settled: seq<Guard>

    constructor ()
      ensures Valid() && View() == NOTHING_HELD
    {
      armed, settled := map[], [];
    }

    ghost function View(): Registry
      reads this
    {
      Registry(armed, settled)
    }

    ghost predicate Valid()
      reads this
    {
      RegistryOk(View()) && |settled| <= SETTLED_MEMORY
    }

    /** The first guard found holding this interface. */
    method HolderOf(ifindex: nat) returns (holder: Option<GuardId>)
      ensures holder.Some? ==> holder.value in armed && armed[holder.value].ifindex == ifindex
      ensures holder.None? ==> !Holds(View(), ifindex)
    {
      var left := armed.Keys;
      while left != {}
        invariant left <= armed.Keys
        invariant forall id :: id in armed.Keys - left ==> armed[id].ifindex != ifindex
        decreases |left|
      {
        var id :| id in left;
        if armed[id].ifindex == ifindex { return Some(id); }
        left := left - {id};
      }
      holder := None;
    }

    /** Holds a reversal, or says exactly why not and holds nothing. */
    method Arm(g: Guard) returns (answer: Answer)
      requires Valid() && Unused(g)
      modifies this
      ensures Valid()
      ensures Admits(old(View()), g) ==>
                answer == Known(g) && View() == Registry(old(armed)[g.id := g], old(settled))
      ensures !Admits(old(View()), g) ==>
                answer.Refused? && Refuses(old(View()), g, answer.refusal) && View() == old(View())
    {
      if !(MIN_WINDOW_S <= g.window <= MAX_WINDOW_S) { return Refused(WindowOutOfRange); }
      if g.guarded == g.restore { return Refused(NothingToRevert); }
      if g.id in armed || Recall(settled, g.id).Some? { return Refused(AlreadyArmed); }
      var holder := HolderOf(g.ifindex);
      if holder.Some? { return Refused(TargetHeld(holder.value)); }
      armed := armed[g.id := g];
      assert Disjoint(View()) by {
        assert forall i :: 0 <= i < |settled| && settled[i].id == g.id ==> Remembers(settled, g.id);
      }
      answer := Known(g);
    }

    /** Moves a guard to the settled memory and forgets the oldest beyond its size. */
    method Conclude(g: Guard)
      requires Valid() && g.id in armed
      modifies this
      ensures Valid()
      ensures View() == Settle(old(View()), g)
    {
      SettleKeepsRegistry(View(), g);
      armed := armed - {g.id};
      settled := settled + [g];
      Forget();
      hide RegistryOk;
    }

    /** The oldest settlement goes first. */
    method Forget()
      modifies this`settled
      ensures settled == Recent(old(settled), SETTLED_MEMORY)
    {
      ghost var all := settled;
      while |settled| > SETTLED_MEMORY
        invariant |settled| <= |all| && settled == all[|all| - |settled|..]
        invariant |settled| >= |Recent(all, SETTLED_MEMORY)|
        decreases |settled|
      {
        settled := settled[1..];
      }
    }

    method DisarmGuard(id: GuardId) returns (answer: Answer)
      requires Valid()
      modifies this
      ensures Valid()
      ensures View() == Disarm(old(View()), id)
      ensures answer == Status(View(), id)
    {
      if id in armed {
        var g := armed[id].(phase := Disarmed, timer := false);
        SettleMovesItself(View(), g);
        Conclude(g);
        answer := Known(g);
      } else {
        var g := Recall(settled, id);
        answer := if g.Some? then Known(g.value) else Lost(id);
      }
    }

    method StatusOf(id: GuardId) returns (answer: Answer)
      ensures answer == Status(View(), id)
    {
      if id in armed { return Known(armed[id]); }
      var g := Recall(settled, id);
      answer := if g.Some? then Known(g.value) else Lost(id);
    }

    /** `written` says whether the write was asked for at all. */
    method OnDeadline(id: GuardId, outcome: Option<Report>) returns (written: bool)
      requires Valid()
      modifies this
      ensures Valid()
      ensures written == (id in old(armed))
      ensures View() == Fire(old(View()), id, outcome)
    {
      if id !in armed { return false; }
      armed := armed[id := armed[id].(phase := Fired, timer := false, stamped := true)];
      written := true;
      if outcome.Some? {
        assert View().armed - {id} == old(armed) - {id};
        Conclude(armed[id].(mutation := outcome));
      }
    }

    /** Cancels every timer, and does nothing else: no guard is settled and none is claimed to
        have acted. */
    method Shutdown()
      requires Valid()
      modifies this
      ensures Valid() && settled == old(settled)
      ensures armed.Keys == old(armed).Keys
      ensures forall id :: id in armed ==> armed[id] == old(armed)[id].(timer := false)
    {
      hide RegistryOk;
      var left := armed.Keys;
      while left != {}
        invariant left <= armed.Keys == old(armed).Keys && settled == old(settled)
        invariant forall id :: id in left ==> armed[id] == old(armed)[id]
        invariant forall id :: id in armed.Keys - left ==> armed[id] == old(armed)[id].(timer := false)
        decreases |left|
      {
        var id :| id in left;
        armed := armed[id := armed[id].(timer := false)];
        left := left - {id};
      }
      UntimedIsOk(old(View()), View());
    }
  }
}
