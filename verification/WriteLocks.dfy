/** Many Runs at once. Each has its own rows and its own requests; Runs about the same host,
    object and aspect share one link and one lock. Every interleaving of them, with restarts
    anywhere, keeps them out of each other's way but for what an ended Run left on the wire. */
module WriteLocks {
  import opened Outcomes
  import opened WritePath
  import opened WritePathInvariant
  import opened WritePathFrames
  import opened WritePathRows
  import opened WritePathHost

  type RunId = nat

  /** What a lock is on. */
  datatype Target = Target(host: nat, object: nat, aspect: nat)

  datatype System = System(runs: map<RunId, World>, on: map<RunId, Target>, links: map<Target, int>)

  datatype SystemEvent =
    | Create(run: RunId, plan: Preview, target: Target)
    | Step(run: RunId, event: Event)
    | WriteElsewhere(target: Target, value: int)
    | StopAll

  predicate Locked(s: System, t: Target, except: RunId) {
    exists r :: r in s.runs && r != except && r in s.on && s.on[r] == t && s.runs[r].row.locked
  }

  /** Somebody else's write, as a Run sees it. */
  function Disturbed(w: World, value: int): World {
    if w.host.link == value then w else w.(host := w.host.(link := value, foreign := true))
  }

  /** One Run has moved to `w`; the others on its target see its link. */
  function Spread(s: System, r: RunId, w: World): (runs: map<RunId, World>)
    requires s.runs.Keys == s.on.Keys && r in s.runs
  {
    map q | q in s.runs ::
      if q == r then w
      else if s.on[q] == s.on[r] then Disturbed(s.runs[q], w.host.link)
      else s.runs[q]
  }

  function Moved(s: System, r: RunId, w: World): System
    requires s.runs.Keys == s.on.Keys && r in s.runs
  {
    s.(runs := Spread(s, r, w), links := s.links[s.on[r] := w.host.link])
  }

  function Stopped(w: World): World {
    if w.pc == Down then w else w.(pc := Down, flow := NoFlow)
  }

  /** The lock row is keyed by the target: acquiring it fails while another Run has it. */
  predicate Admitted(s: System, r: RunId, e: Event)
    requires r in s.on
  {
    && (e == Begin(ApplyCall) ==> !Locked(s, s.on[r], r))
    && !(e.HostStep? && e.move.ForeignWrite?)
  }

  ghost function SystemNext(s: System, e: SystemEvent): Option<System>
    requires s.runs.Keys == s.on.Keys
  {
    match e
    case Create(r, p, t) =>
      if r in s.runs || t !in s.links || !Published(p) then None
      else
        var host := Host(s.links[t], s.links[t], false, map[], [], [], NotAsked, NotHeld, false, false);
        Some(s.(runs := s.runs[r := World(p, NEW_ROW, Idle, NoFlow, false, host)], on := s.on[r := t]))
    case Step(r, event) =>
      if r !in s.runs || !Admitted(s, r, event) || Next(s.runs[r], event).None? then None
      else
        Some(Moved(s, r, Next(s.runs[r], event).value))
    case WriteElsewhere(t, v) =>
      if t !in s.links then None
      else
        Some(s.(runs := map q | q in s.runs :: if s.on[q] == t then Disturbed(s.runs[q], v) else s.runs[q],
                links := s.links[t := v]))
    case StopAll => Some(s.(runs := map q | q in s.runs :: Stopped(s.runs[q])))
  }

  predicate SystemInit(s: System) {
    s.runs == map[] && s.on == map[]
  }

  // --------------------------------------------------------------------------- the invariant

  /** No two Runs on one target both have its lock. */
  predicate LocksAreExclusive(s: System)
    requires s.runs.Keys == s.on.Keys
  {
    forall q, r :: q in s.runs && r in s.runs && q != r && s.on[q] == s.on[r] ==>
      !(s.runs[q].row.locked && s.runs[r].row.locked)
  }

  ghost predicate SystemOk(s: System) {
    && s.runs.Keys == s.on.Keys
    && (forall r :: r in s.runs ==> Reachable(s.runs[r]))
    && (forall r :: r in s.runs ==> s.on[r] in s.links && s.links[s.on[r]] == s.runs[r].host.link)
    && LocksAreExclusive(s)
  }

  /** The system has gone wrong somewhere. */
  ghost predicate SystemBroken(s: System) {
    !SystemOk(s)
  }

  ghost predicate SystemHolds(s: System) {
    !SystemBroken(s)
  }

  lemma DisturbedIsReachable(w: World, v: int)
    requires Reachable(w)
    ensures Reachable(Disturbed(w, v)) && Disturbed(w, v).row == w.row && Disturbed(w, v).host.link == v
  {
    if w.host.link != v {
      hide Reachable;
      ReachableStep(w, HostStep(ForeignWrite(v)), Disturbed(w, v));
    }
  }

  lemma StoppedIsReachable(w: World)
    requires Reachable(w)
    ensures Reachable(Stopped(w)) && Stopped(w).row == w.row && Stopped(w).host == w.host
  {
    if w.pc != Down {
      hide Reachable;
      ReachableStep(w, Die(true), Stopped(w));
    }
  }

  /** A lock is taken by the request to apply and by nothing else. */
  lemma OnlyApplyTakesTheLock(w: World, e: Event, w': World)
    requires Next(w, e) == Some(w') && !w.row.locked && w'.row.locked
    ensures e == Begin(ApplyCall)
  {
    if !MovesRows(e) { OnlyTransactionsMoveRows(w, e, w'); }
    if e.Commit? { CommitTakesNoLock(w, w'); }
    if e.Refuse? { RefuseTakesNoLock(w, w'); }
    hide CommitNext, RefuseNext, ObserveNext, SendNext, AnswerNext, ArmAnswerNext, GuardAnswerNext, ReplanNext,
      DieNext, HostMoveNext, HoldOpen;
  }

  lemma RefuseTakesNoLock(w: World, w': World)
    requires RefuseNext(w) == Some(w')
    ensures w'.row.locked ==> w.row.locked
  {
  }

  lemma CommitTakesNoLock(w: World, w': World)
    requires CommitNext(w) == Some(w')
    ensures w'.row.locked ==> w.row.locked
  {
    hide HoldOpen;
  }

  lemma NewRunIsReachable(w: World)
    requires Init(w)
    ensures Reachable(w)
  {
    assert Runs(w, [], w);
  }

  lemma CreateKeepsSystem(s: System, r: RunId, p: Preview, t: Target, s': System)
    requires SystemHolds(s) && SystemNext(s, Create(r, p, t)) == Some(s')
    ensures SystemHolds(s')
  {
    CreateIs(s, r, p, t);
    var host := Host(s.links[t], s.links[t], false, map[], [], [], NotAsked, NotHeld, false, false);
    var w := World(p, NEW_ROW, Idle, NoFlow, false, host);
    NewRunIsReachable(w);
    hide Reachable, SystemNext;
    NewRunKeepsSystem(s, r, w, t);
  }

  lemma CreateIs(s: System, r: RunId, p: Preview, t: Target)
    requires s.runs.Keys == s.on.Keys && SystemNext(s, Create(r, p, t)).Some?
    ensures r !in s.runs && t in s.links && Published(p)
    ensures var host := Host(s.links[t], s.links[t], false, map[], [], [], NotAsked, NotHeld, false, false);
            var w := World(p, NEW_ROW, Idle, NoFlow, false, host);
            SystemNext(s, Create(r, p, t)) == Some(s.(runs := s.runs[r := w], on := s.on[r := t]))
  {
  }

  /** A Run that has taken no lock, and sees its target's link, joins. */
  lemma NewRunKeepsSystem(s: System, r: RunId, w: World, t: Target)
    requires SystemHolds(s) && r !in s.runs && t in s.links
    requires Reachable(w) && !w.row.locked && w.host.link == s.links[t]
    ensures SystemHolds(s.(runs := s.runs[r := w], on := s.on[r := t]))
  {
    hide Reachable;
  }

  /** The Runs that did not step keep their rows, stay reachable, and see the new link. */
  lemma OthersAreDisturbed(s: System, r: RunId, w': World, q: RunId)
    requires SystemHolds(s) && r in s.runs && q in s.runs && q != r
    ensures Reachable(Spread(s, r, w')[q]) && Spread(s, r, w')[q].row == s.runs[q].row
    ensures Spread(s, r, w')[q].host.link == if s.on[q] == s.on[r] then w'.host.link else s.runs[q].host.link
  {
    hide Reachable;
    DisturbedIsReachable(s.runs[q], w'.host.link);
  }

  /** Nobody steps into a lock that is taken. */
  lemma LockIsExclusive(s: System, r: RunId, e: Event, w': World, q: RunId)
    requires SystemHolds(s) && r in s.runs && q in s.runs && q != r && s.on[q] == s.on[r]
    requires Admitted(s, r, e) && Next(s.runs[r], e) == Some(w')
    ensures !(s.runs[q].row.locked && w'.row.locked)
  {
    hide Reachable, Next;
    if s.runs[q].row.locked && !s.runs[r].row.locked && w'.row.locked {
      OnlyApplyTakesTheLock(s.runs[r], e, w');
    }
  }

  lemma MovedKeepsSystem(s: System, r: RunId, w': World)
    requires SystemHolds(s) && r in s.runs && Reachable(w')
    requires forall q :: q in s.runs && q != r && s.on[q] == s.on[r] ==> !(s.runs[q].row.locked && w'.row.locked)
    ensures SystemHolds(Moved(s, r, w'))
  {
    hide Reachable;
    forall q | q in s.runs && q != r
      ensures Reachable(Spread(s, r, w')[q]) && Spread(s, r, w')[q].row == s.runs[q].row
      ensures Spread(s, r, w')[q].host.link == if s.on[q] == s.on[r] then w'.host.link else s.runs[q].host.link
    {
      OthersAreDisturbed(s, r, w', q);
    }
    hide Disturbed;
    assert Spread(s, r, w')[r] == w';
  }

  lemma StepKeepsSystem(s: System, r: RunId, e: Event, s': System)
    requires SystemHolds(s) && SystemNext(s, Step(r, e)) == Some(s')
    ensures SystemHolds(s')
  {
    var w' := Next(s.runs[r], e).value;
    hide Reachable, Next, Moved;
    ReachableStep(s.runs[r], e, w');
    forall q | q in s.runs && q != r && s.on[q] == s.on[r]
      ensures !(s.runs[q].row.locked && w'.row.locked)
    {
      LockIsExclusive(s, r, e, w', q);
    }
    hide Admitted;
    MovedKeepsSystem(s, r, w');
  }

  lemma ElsewhereKeepsSystem(s: System, t: Target, v: int, s': System)
    requires SystemHolds(s) && SystemNext(s, WriteElsewhere(t, v)) == Some(s')
    ensures SystemHolds(s')
  {
    hide Reachable;
    forall q | q in s.runs && s.on[q] == t
      ensures Reachable(s'.runs[q]) && s'.runs[q].row == s.runs[q].row && s'.runs[q].host.link == v
    {
      DisturbedIsReachable(s.runs[q], v);
    }
  }

  lemma StopKeepsSystem(s: System, s': System)
    requires SystemHolds(s) && SystemNext(s, StopAll) == Some(s')
    ensures SystemHolds(s')
  {
    hide Reachable;
    forall q | q in s.runs
      ensures Reachable(s'.runs[q]) && s'.runs[q].row == s.runs[q].row && s'.runs[q].host == s.runs[q].host
    {
      StoppedIsReachable(s.runs[q]);
    }
  }

  lemma SystemStepKeepsOk(s: System, e: SystemEvent, s': System)
    requires SystemHolds(s) && SystemNext(s, e) == Some(s')
    ensures SystemHolds(s')
  {
    match e {
      case Create(r, p, t) => CreateKeepsSystem(s, r, p, t, s');
      case Step(r, event) => StepKeepsSystem(s, r, event, s');
      case WriteElsewhere(t, v) => ElsewhereKeepsSystem(s, t, v, s');
      case StopAll => StopKeepsSystem(s, s');
    }
    hide *;
  }

  ghost predicate SystemRuns(s: System, es: seq<SystemEvent>, s': System)
    decreases |es|
  {
    if es == [] then s == s'
    else
      && s.runs.Keys == s.on.Keys
      && SystemNext(s, es[0]).Some?
      && SystemRuns(SystemNext(s, es[0]).value, es[1..], s')
  }

  lemma {:induction false} SystemStaysOk(s: System, es: seq<SystemEvent>, s': System)
    requires SystemHolds(s) && SystemRuns(s, es, s')
    ensures SystemHolds(s')
    decreases |es|
  {
    hide SystemNext, SystemOk;
    if es != [] {
      SystemStepKeepsOk(s, es[0], SystemNext(s, es[0]).value);
      SystemStaysOk(SystemNext(s, es[0]).value, es[1..], s');
    }
  }

  ghost predicate SystemReachable(s: System) {
    exists s0, es :: SystemInit(s0) && SystemRuns(s0, es, s)
  }

  lemma ReachableSystemIsOk(s: System)
    requires SystemReachable(s)
    ensures SystemHolds(s)
  {
    var s0, es :| SystemInit(s0) && SystemRuns(s0, es, s);
    assert SystemHolds(s0);
    SystemStaysOk(s0, es, s);
  }

  // --------------------------------------------------------------------------- what it promises

  /** A Change is unfinished, or admitted and not yet released. */
  predicate Holding(row: Row) {
    row.change.Some? &&
    (row.change.value.result == InFlight ||
     (row.change.value.result == RecoveryResult && forall i :: 0 <= i < |row.attempts| ==> !row.attempts[i].releases))
  }

  lemma HoldingMeansLocked(w: World)
    requires RowsHold(w) && Holding(w.row)
    ensures w.row.locked
  {
    ReleasedIsLast(w.row, w.p);
  }

  /** However Runs, crashes and restarts interleave, at most one Run per host, object and
      aspect has a Change that is unfinished or unresolved, and it is the one that owns the
      lock; and each Run by itself behaves exactly as the single-Run machine allows. */
  lemma WriteLockExclusion(s: System, q: RunId, r: RunId)
    requires SystemReachable(s) && q in s.runs && r in s.runs && q in s.on && r in s.on
    requires q != r && s.on[q] == s.on[r]
    ensures Reachable(s.runs[q]) && Reachable(s.runs[r])
    ensures Holding(s.runs[q].row) ==> s.runs[q].row.locked && !s.runs[r].row.locked && !Holding(s.runs[r].row)
  {
    ReachableSystemIsOk(s);
    hide SystemReachable, Reachable;
    ReachableIsTrue(s.runs[q]);
    ReachableIsTrue(s.runs[r]);
    hide RowsLie, HostLies, Holding;
    if Holding(s.runs[q].row) { HoldingMeansLocked(s.runs[q]); }
    if Holding(s.runs[r].row) { HoldingMeansLocked(s.runs[r]); }
  }

  /** What a Run that holds nothing may still have inside the helper. */
  predicate LeftBehind(w: World, a: Attempt) {
    var row := w.row;
    match a
    case ApplyWrite => row.change.Some? && row.change.value.outcome == Some(WriteUnknown)
    case RollbackWrite =>
      row.change.Some? && row.change.value.result == RecoveryResult
      && row.change.value.rollbackOutcome in {None, Some(WriteUnknown)}
    case ReversalWrite => row.guard.Some? && (row.guard.value.kept ==> w.host.raised)
    case RetryWrite(n) =>
      n < |row.attempts| && row.attempts[n].outcome in {None, Some(WriteUnknown)}
  }

  lemma ReleasedRows(w: World)
    requires RowsHold(w) && !Holding(w.row)
    ensures w.row.change.Some? ==> w.row.change.value.outcome.Some?
    ensures w.row.change.Some? && w.row.change.value.rollbackAttempt == Some(RollbackWrite)
            && w.row.change.value.result != RecoveryResult ==>
              w.row.change.value.rollbackOutcome in {Some(NotWritten), Some(Written)}
  {
  }

  /** A Run that holds nothing can still write only what nobody ever answered for: an apply,
      rollback or retry with an unknown outcome, or the reversal of a guard that outlived it, or
      that was kept over a raise. */
  lemma OnlyTheUnansweredIsLeft(w: World, a: Attempt)
    requires Reachable(w) && !Holding(w.row) && Open(w.host, a)
    ensures LeftBehind(w, a)
  {
    ReachableIsTrue(w);
    WasAnnounced(w, a);
    ReleasedRows(w);
    OpenIsUnanswered(w, a);
    hide *;
  }

  lemma OpenIsUnanswered(w: World, a: Attempt)
    requires HostHolds(w) && Open(w.host, a) && RequestOk(w.p, w.row, w.host, a)
    requires w.row.change.Some? ==> w.row.change.value.outcome.Some?
    requires w.row.change.Some? && w.row.change.value.rollbackAttempt == Some(RollbackWrite)
             && w.row.change.value.result != RecoveryResult ==>
               w.row.change.value.rollbackOutcome in {Some(NotWritten), Some(Written)}
    ensures LeftBehind(w, a)
  {
    hide WireOk, LogsOk, PcTrue;
    match a
    case ApplyWrite => OpenIsUnknown(w.host, a, w.row.change.value.outcome);
    case RollbackWrite => OpenIsUnknown(w.host, a, w.row.change.value.rollbackOutcome);
    case ReversalWrite =>
    case RetryWrite(n) => OpenIsUnknown(w.host, a, w.row.attempts[n].outcome);
  }

  /** An open request has no definite outcome on record. */
  lemma OpenIsUnknown(h: Host, a: Attempt, outcome: Option<MutationOutcome>)
    requires Open(h, a) && Claimed(h, a, outcome)
    ensures outcome in {None, Some(WriteUnknown)}
  {
  }

  /** While one Run holds a target, a write another Run has accepted there was left behind by
      it: locks do not order the helper's queue. */
  lemma InterferenceIsLeftBehind(s: System, q: RunId, r: RunId, a: Attempt)
    requires SystemReachable(s) && q in s.runs && r in s.runs && q in s.on && r in s.on
    requires q != r && s.on[q] == s.on[r] && Holding(s.runs[q].row)
    requires HostMoveNext(s.runs[r], AcceptRequest(a)).Some?
    ensures LeftBehind(s.runs[r], a)
  {
    WriteLockExclusion(s, q, r);
    hide Reachable, SystemReachable, Holding, LeftBehind;
    OnlyTheUnansweredIsLeft(s.runs[r], a);
  }

  // ------------------------------------------------------------- when it can happen, exactly

  /** What the helper does with a request. */
  predicate HelperMove(m: HostMove) {
    m.MatchRequest? || m.RejectRequest? || m.AcceptRequest?
  }

  predicate HelperEvent(e: SystemEvent) {
    e.Step? && e.event.HostStep? && HelperMove(e.event.move)
  }

  /** The helper would let this request write now: it is past its comparison, or would pass it. */
  predicate Ready(w: World, a: Attempt) {
    && Open(w.host, a)
    && (w.host.wire[a].stage == Matched
        || (w.p.kind == FieldChange ==> w.host.link == w.host.wire[a].expected != w.host.wire[a].desired))
  }

  predicate NothingReady(w: World) {
    forall a :: a in w.host.wire ==> !Ready(w, a)
  }

  /** No other Run on this target has had a write accepted in between. */
  predicate OthersWroteNothing(s: System, s': System, r: RunId)
    requires s.runs.Keys == s.on.Keys && r in s.runs
  {
    forall x :: x in s.runs && x in s'.runs && x != r && s.on[x] == s.on[r] ==>
      s'.runs[x].host.accepted == s.runs[x].host.accepted
  }

  /** The helper, working on whatever is inside it, takes one of this Run's writes before anybody
      else's on the same target. */
  ghost predicate CanStillWrite(s: System, r: RunId)
    requires s.runs.Keys == s.on.Keys && r in s.runs
  {
    exists es, s' ::
      && (forall i :: 0 <= i < |es| ==> HelperEvent(es[i]))
      && SystemRuns(s, es, s')
      && r in s'.runs && OthersWroteNothing(s, s', r)
      && s'.runs[r].host.accepted != s.runs[r].host.accepted
  }

  lemma HelperStepIs(w: World, m: HostMove, w': World)
    requires HelperMove(m) && HostMoveNext(w, m) == Some(w')
    ensures w' == w.(host := w'.host) && w.host.accepted <= w'.host.accepted
    ensures !m.AcceptRequest? ==> w'.host.link == w.host.link && w'.host.accepted == w.host.accepted
    ensures m.AcceptRequest? ==> w'.host.accepted == w.host.accepted + [m.attempt] && Ready(w, m.attempt)
    ensures m.MatchRequest? ==> Ready(w, m.attempt)
    ensures m.RejectRequest? ==> forall a :: a in w'.host.wire && Ready(w', a) ==> a in w.host.wire && Ready(w, a)
  {
  }

  /** A helper's move for one Run, seen from the whole system. */
  lemma HelperStepSpreads(s: System, r: RunId, m: HostMove, s': System)
    requires SystemHolds(s) && HelperMove(m) && SystemNext(s, Step(r, HostStep(m))) == Some(s')
    ensures r in s.runs && HostMoveNext(s.runs[r], m).Some?
    ensures var w' := HostMoveNext(s.runs[r], m).value;
            && s'.runs.Keys == s.runs.Keys && s'.on == s.on && s'.runs[r] == w'
            && (forall x :: x in s.runs && x != r ==> s'.runs[x].host.accepted == s.runs[x].host.accepted)
            && (w'.host.link == s.runs[r].host.link ==> forall x :: x in s.runs && x != r ==> s'.runs[x] == s.runs[x])
  {
    hide Reachable, LocksAreExclusive, HostMoveNext;
  }

  lemma {:induction false} AcceptedOnlyGrows(s: System, es: seq<SystemEvent>, s': System, x: RunId)
    requires SystemHolds(s) && SystemRuns(s, es, s') && x in s.runs
    requires forall i :: 0 <= i < |es| ==> HelperEvent(es[i])
    ensures x in s'.runs && s'.runs.Keys == s.runs.Keys && s'.on == s.on
    ensures s.runs[x].host.accepted <= s'.runs[x].host.accepted
    decreases |es|
  {
    hide SystemOk, SystemNext;
    if es != [] {
      assert HelperEvent(es[0]);
      var next := SystemNext(s, es[0]).value;
      SystemStepKeepsOk(s, es[0], next);
      HelperStepSpreads(s, es[0].run, es[0].event.move, next);
      HelperStepIs(s.runs[es[0].run], es[0].event.move, next.runs[es[0].run]);
      AcceptedOnlyGrows(next, es[1..], s', x);
    }
  }

  /** While nothing of this Run's is ready and nobody else writes, nothing of it becomes ready. */
  lemma HelperStepKeepsIdle(s: System, r: RunId, e: SystemEvent, s': System)
    requires SystemHolds(s) && SystemNext(s, e) == Some(s') && HelperEvent(e) && r in s.runs
    requires NothingReady(s.runs[r])
    requires e.run in s.runs && s.on[e.run] == s.on[r] && e.event.move.AcceptRequest? ==> e.run == r
    ensures r in s'.runs && NothingReady(s'.runs[r]) && s'.runs[r].host.accepted == s.runs[r].host.accepted
    ensures s'.on == s.on
  {
    var x, m := e.run, e.event.move;
    HelperStepSpreads(s, x, m, s');
    var w' := HostMoveNext(s.runs[x], m).value;
    HelperStepIs(s.runs[x], m, w');
    if x == r {
      assert m.RejectRequest?;
    } else if s.on[x] != s.on[r] {
      assert s'.runs[r] == s.runs[r];
    }
    hide SystemOk, SystemNext, Ready;
  }

  /** If the others had written nothing by the end, they had written nothing after one step. */
  lemma OthersWroteNothingYet(s: System, r: RunId, e: SystemEvent, next: System, es: seq<SystemEvent>, s': System)
    requires SystemHolds(s) && r in s.runs && SystemNext(s, e) == Some(next) && HelperEvent(e)
    requires SystemHolds(next) && SystemRuns(next, es, s')
    requires forall i :: 0 <= i < |es| ==> HelperEvent(es[i])
    requires OthersWroteNothing(s, s', r)
    ensures r in next.runs && next.runs.Keys == next.on.Keys && OthersWroteNothing(next, s', r)
    ensures e.run in s.runs && s.on[e.run] == s.on[r] && e.event.move.AcceptRequest? ==> e.run == r
  {
    HelperStepSpreads(s, e.run, e.event.move, next);
    HelperStepIs(s.runs[e.run], e.event.move, next.runs[e.run]);
    SystemKeys(next);
    hide SystemOk, SystemNext, SystemRuns, HelperEvent, HostMoveNext;
    forall x | x in next.runs ensures x in s'.runs && next.runs[x].host.accepted <= s'.runs[x].host.accepted {
      AcceptedOnlyGrows(next, es, s', x);
    }
  }

  lemma {:induction false} IdleStaysIdle(s: System, r: RunId, es: seq<SystemEvent>, s': System)
    requires SystemHolds(s) && r in s.runs && NothingReady(s.runs[r]) && SystemRuns(s, es, s')
    requires forall i :: 0 <= i < |es| ==> HelperEvent(es[i])
    requires OthersWroteNothing(s, s', r)
    ensures r in s'.runs && s'.runs[r].host.accepted == s.runs[r].host.accepted
    decreases |es|
  {
    hide SystemOk, SystemNext, NothingReady, OthersWroteNothing;
    if es != [] {
      var next := SystemNext(s, es[0]).value;
      assert HelperEvent(es[0]);
      SystemStepKeepsOk(s, es[0], next);
      OthersWroteNothingYet(s, r, es[0], next, es[1..], s');
      HelperStepKeepsIdle(s, r, es[0], next);
      IdleStaysIdle(next, r, es[1..], s');
    }
  }

  lemma ReadyIsAccepted(s: System, r: RunId, a: Attempt)
    requires SystemHolds(s) && r in s.runs && Ready(s.runs[r], a)
    ensures CanStillWrite(s, r)
  {
    if s.runs[r].host.wire[a].stage == Matched {
      MatchedIsAccepted(s, r, a);
    } else {
      var e := Step(r, HostStep(MatchRequest(a)));
      var s1 := SystemNext(s, e).value;
      HelperStepSpreads(s, r, MatchRequest(a), s1);
      HelperStepIs(s.runs[r], MatchRequest(a), s1.runs[r]);
      assert Open(s1.runs[r].host, a) && s1.runs[r].host.wire[a].stage == Matched;
      hide SystemOk, SystemNext;
      SystemStepKeepsOk(s, e, s1);
      MatchedIsAccepted(s1, r, a);
      CanWriteAfter(s, r, e, s1);
    }
  }

  lemma AcceptanceCanCome(s: System, r: RunId, a: Attempt)
    requires SystemHolds(s) && r in s.runs && Open(s.runs[r].host, a) && s.runs[r].host.wire[a].stage == Matched
    ensures SystemNext(s, Step(r, HostStep(AcceptRequest(a)))).Some?
  {
  }

  lemma MatchedIsAccepted(s: System, r: RunId, a: Attempt)
    requires SystemHolds(s) && r in s.runs && Open(s.runs[r].host, a) && s.runs[r].host.wire[a].stage == Matched
    ensures CanStillWrite(s, r)
  {
    var e := Step(r, HostStep(AcceptRequest(a)));
    AcceptanceCanCome(s, r, a);
    hide SystemOk, SystemHolds, Reachable, LocksAreExclusive;
    var s1 := SystemNext(s, e).value;
    HelperStepSpreads(s, r, AcceptRequest(a), s1);
    HelperStepIs(s.runs[r], AcceptRequest(a), s1.runs[r]);
    hide SystemOk, SystemNext;
    assert [e][1..] == [] && SystemRuns(s1, [], s1);
    assert SystemRuns(s, [e], s1) by { SystemKeys(s); }
  }

  lemma SystemKeys(s: System)
    requires SystemHolds(s)
    ensures s.runs.Keys == s.on.Keys
  {
  }

  lemma CanWriteAfter(s: System, r: RunId, e: SystemEvent, s1: System)
    requires SystemHolds(s) && SystemHolds(s1) && r in s.runs && HelperEvent(e) && SystemNext(s, e) == Some(s1)
    requires e == Step(r, e.event) && s1.runs.Keys == s.runs.Keys && s1.on == s.on
    requires forall x :: x in s.runs && x != r ==> s1.runs[x].host.accepted == s.runs[x].host.accepted
    requires s1.runs[r].host.accepted == s.runs[r].host.accepted && CanStillWrite(s1, r)
    ensures CanStillWrite(s, r)
  {
    hide SystemOk, SystemNext;
    SystemKeys(s);
    var es, s' :|
      && (forall i :: 0 <= i < |es| ==> HelperEvent(es[i]))
      && SystemRuns(s1, es, s')
      && r in s'.runs && OthersWroteNothing(s1, s', r)
      && s'.runs[r].host.accepted != s1.runs[r].host.accepted;
    assert ([e] + es)[1..] == es && ([e] + es)[0] == e;
    assert SystemRuns(s, [e] + es, s');
    assert OthersWroteNothing(s, s', r);
  }

  /** While one Run holds the target, another can still write it first exactly when one of its
      requests is inside the helper and past its comparison, or would pass it with the link as it
      is; and each such request is one it left behind. */
  lemma InterferenceIff(s: System, q: RunId, r: RunId)
    requires SystemReachable(s) && q in s.runs && r in s.runs && s.runs.Keys == s.on.Keys
    requires q != r && s.on[q] == s.on[r] && Holding(s.runs[q].row)
    ensures CanStillWrite(s, r) <==> !NothingReady(s.runs[r])
    ensures forall a :: Ready(s.runs[r], a) ==> LeftBehind(s.runs[r], a)
  {
    ReachableSystemIsOk(s);
    WriteLockExclusion(s, q, r);
    hide SystemReachable, Reachable, SystemOk, Holding, LeftBehind;
    forall a | Ready(s.runs[r], a) ensures LeftBehind(s.runs[r], a) {
      OnlyTheUnansweredIsLeft(s.runs[r], a);
    }
    if NothingReady(s.runs[r]) {
      forall es, s' |
        && (forall i :: 0 <= i < |es| ==> HelperEvent(es[i]))
        && SystemRuns(s, es, s')
        && r in s'.runs && OthersWroteNothing(s, s', r)
        ensures s'.runs[r].host.accepted == s.runs[r].host.accepted
      {
        IdleStaysIdle(s, r, es, s');
      }
    } else {
      var a :| a in s.runs[r].host.wire && Ready(s.runs[r], a);
      ReadyIsAccepted(s, r, a);
    }
  }
}
