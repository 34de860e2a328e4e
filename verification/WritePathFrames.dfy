/** What a step can and cannot touch. */
module WritePathFrames {
  import opened Outcomes
  import opened WritePath

  /** Only a request, a transaction or a refusal moves the rows. */
  predicate MovesRows(e: Event) {
    e.Begin? || e.Commit? || e.Refuse?
  }

  lemma ObserveFrame(w: World, o: Observation, w': World)
    requires ObserveNext(w, o) == Some(w')
    ensures w'.p == w.p && w'.row == w.row && w'.host == w.host
  {
    hide ReadBack, Faithful;
  }

  lemma SendFrame(w: World, w': World)
    requires SendNext(w) == Some(w')
    ensures w'.p == w.p && w'.row == w.row && w'.quiet == w.quiet
    ensures w'.host.link == w.host.link && w'.host.accepted == w.host.accepted
    ensures w'.host.start == w.host.start && w'.host.foreign == w.host.foreign
    ensures w.pc.InApply? || w.pc.InRestore? || w.pc.InRecover?
  {
  }

  lemma AnswerFrame(w: World, report: Report, w': World)
    requires AnswerNext(w, report) == Some(w')
    ensures w'.p == w.p && w'.row == w.row && w'.host == w.host && w'.quiet == w.quiet
  {
    hide Answerable;
  }

  lemma ArmAnswerFrame(w: World, armed: bool, w': World)
    requires ArmAnswerNext(w, armed) == Some(w')
    ensures w'.p == w.p && w'.row == w.row && w'.host == w.host && w'.quiet == w.quiet
  {
  }

  lemma DisarmFrame(h: Host, report: GuardReport, late: bool, h': Host)
    requires DisarmAnswer(h, report, late) == Some(h')
    ensures h' == h.(held := h'.held, releaseWire := h'.releaseWire)
  {
    hide HonestReport;
  }

  lemma GuardAnswerFrame(w: World, report: GuardReport, late: bool, w': World)
    requires GuardAnswerNext(w, report, late) == Some(w')
    ensures w'.p == w.p && w'.row == w.row && w'.quiet == w.quiet
    ensures w'.host == w.host.(held := w'.host.held, releaseWire := w'.host.releaseWire)
  {
    if w'.host != w.host {
      hide HonestReport, DisarmAnswer;
      DisarmFrame(w.host, report, late, w'.host);
    }
  }

  lemma ReplanFrame(w: World, kind: ChangeKind, desired: int, w': World)
    requires ReplanNext(w, kind, desired) == Some(w')
    ensures w'.p == w.p && w'.row == w.row && w'.host == w.host && w'.quiet == w.quiet
  {
  }

  lemma RefuseFrame(w: World, w': World)
    requires RefuseNext(w) == Some(w')
    ensures w'.p == w.p && w'.host == w.host && w'.quiet == w.quiet
    ensures w.pc != InApply(Authorised) ==> w'.row == w.row
  {
  }

  lemma BeginFrame(w: World, call: Call, w': World)
    requires BeginNext(w, call) == Some(w')
    ensures w'.p == w.p && w'.host == w.host && w'.quiet == w.quiet
    ensures w'.row.change == w.row.change && w'.row.effect == w.row.effect
    ensures !Appliable(w.row.state) ==> w'.row.state == w.row.state
  {
    hide HoldOpen;
  }

  lemma CommitFrame(w: World, w': World)
    requires CommitNext(w) == Some(w')
    ensures w'.p == w.p && w'.host == w.host && w'.quiet == w.quiet
  {
  }

  /** Rows move only by transactions. */
  lemma OnlyTransactionsMoveRows(w: World, e: Event, w': World)
    requires Next(w, e) == Some(w') && !MovesRows(e)
    ensures w'.row == w.row
  {
    hide BeginNext, CommitNext, RefuseNext, ObserveNext, SendNext, AnswerNext, ArmAnswerNext,
      GuardAnswerNext, ReplanNext;
    match e
    case Observe(o) => ObserveFrame(w, o, w');
    case Send => SendFrame(w, w');
    case Answer(report) => AnswerFrame(w, report, w');
    case ArmAnswer(armed) => ArmAnswerFrame(w, armed, w');
    case GuardAnswer(report, late) => GuardAnswerFrame(w, report, late, w');
    case Replan(kind, desired) => ReplanFrame(w, kind, desired, w');
    case _ =>
  }

  /** The link, and what the kernel accepted, move only by the host's own steps; nothing the
      backend does is a write. */
  lemma OnlyTheHostMovesTheLink(w: World, e: Event, w': World)
    requires Next(w, e) == Some(w') && !e.HostStep?
    ensures w'.host.link == w.host.link && w'.host.accepted == w.host.accepted
    ensures w'.host.start == w.host.start && w'.host.foreign == w.host.foreign
    ensures !e.Send? ==> w'.host.wire == w.host.wire && w'.host.sends == w.host.sends
  {
    hide BeginNext, CommitNext, RefuseNext, ObserveNext, SendNext, AnswerNext, ArmAnswerNext,
      GuardAnswerNext, ReplanNext;
    match e
    case Begin(call) => BeginFrame(w, call, w');
    case Commit => CommitFrame(w, w');
    case Refuse => RefuseFrame(w, w');
    case Observe(o) => ObserveFrame(w, o, w');
    case Send => SendFrame(w, w');
    case Answer(report) => AnswerFrame(w, report, w');
    case ArmAnswer(armed) => ArmAnswerFrame(w, armed, w');
    case GuardAnswer(report, late) => GuardAnswerFrame(w, report, late, w');
    case Replan(kind, desired) => ReplanFrame(w, kind, desired, w');
    case _ =>
  }

  /** The plan never moves. */
  lemma PlanIsFixed(w: World, e: Event, w': World)
    requires Next(w, e) == Some(w')
    ensures w'.p == w.p
  {
    hide BeginNext, CommitNext, RefuseNext, ObserveNext, SendNext, AnswerNext, ArmAnswerNext,
      GuardAnswerNext, ReplanNext;
    match e
    case Begin(call) => BeginFrame(w, call, w');
    case Commit => CommitFrame(w, w');
    case Refuse => RefuseFrame(w, w');
    case Observe(o) => ObserveFrame(w, o, w');
    case Send => SendFrame(w, w');
    case Answer(report) => AnswerFrame(w, report, w');
    case ArmAnswer(armed) => ArmAnswerFrame(w, armed, w');
    case GuardAnswer(report, late) => GuardAnswerFrame(w, report, late, w');
    case Replan(kind, desired) => ReplanFrame(w, kind, desired, w');
    case _ =>
  }

  lemma {:induction false} RunsJoin(w: World, es: seq<Event>, w1: World, es': seq<Event>, w2: World)
    requires Runs(w, es, w1) && Runs(w1, es', w2)
    ensures Runs(w, es + es', w2)
    decreases |es|
  {
    hide Next;
    if es == [] {
      assert es + es' == es';
    } else {
      assert (es + es')[0] == es[0] && (es + es')[1..] == es[1..] + es';
      RunsJoin(Next(w, es[0]).value, es[1..], w1, es', w2);
    }
  }

  lemma OneStep(w: World, e: Event, w': World)
    requires Next(w, e) == Some(w')
    ensures Runs(w, [e], w')
  {
    hide Next;
    assert [e][1..] == [];
    assert Runs(w', [], w');
  }

  /** What is reachable stays reachable along any run. */
  lemma ReachableRuns(w: World, es: seq<Event>, w': World)
    requires Reachable(w) && Runs(w, es, w')
    ensures Reachable(w')
  {
    var w0, es0 :| Init(w0) && Runs(w0, es0, w);
    RunsJoin(w0, es0, w, es, w');
  }

  lemma ReachableStep(w: World, e: Event, w': World)
    requires Reachable(w) && Next(w, e) == Some(w')
    ensures Reachable(w')
  {
    hide Next, Reachable;
    OneStep(w, e, w');
    ReachableRuns(w, [e], w');
  }

  /** One step more. */
  lemma RunsExtend(w0: World, es: seq<Event>, w: World, e: Event, w': World)
    requires Runs(w0, es, w) && Next(w, e) == Some(w')
    ensures Runs(w0, es + [e], w')
  {
    hide Next;
    OneStep(w, e, w');
    RunsJoin(w0, es, w, [e], w');
  }

  lemma CommitRun(w: World, w': World)
    requires CommitNext(w) == Some(w')
    ensures Runs(w, [Commit], w')
  {
    hide CommitNext;
    OneStep(w, Commit, w');
  }

  lemma {:induction false} RunKeepsPlan(w: World, es: seq<Event>, w': World)
    requires Runs(w, es, w')
    ensures w'.p == w.p
    decreases |es|
  {
    hide Next;
    if es != [] {
      PlanIsFixed(w, es[0], Next(w, es[0]).value);
      RunKeepsPlan(Next(w, es[0]).value, es[1..], w');
    }
  }

  /** Some run leads from one world to the other. */
  ghost predicate Leads(w: World, w': World) {
    exists es :: Runs(w, es, w')
  }

  lemma LeadsNowhere(w: World)
    ensures Leads(w, w)
  {
    assert Runs(w, [], w);
  }

  lemma LeadsOn(w0: World, w: World, e: Event, w': World)
    requires Leads(w0, w) && Next(w, e) == Some(w')
    ensures Leads(w0, w')
  {
    hide Next;
    var es :| Runs(w0, es, w);
    RunsExtend(w0, es, w, e, w');
  }

  lemma LeadsJoin(w0: World, w1: World, w2: World)
    requires Leads(w0, w1) && Leads(w1, w2)
    ensures Leads(w0, w2)
  {
    hide Next;
    var es :| Runs(w0, es, w1);
    var es' :| Runs(w1, es', w2);
    RunsJoin(w0, es, w1, es', w2);
  }
}
