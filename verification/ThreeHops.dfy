/** One write, three hops: the backend asks the agent, the agent asks the helper, the helper
    asks the kernel, and each may fail at any point. What the backend ends up recording is
    sound for what the kernel accepted, under every schedule of faults. */
module ThreeHops {
  import opened Bytes
  import opened Outcomes
  import opened LineIpc
  import MtuSetter
  import HelperService
  import WritePath

  const OUTCOME := "outcome"
  const MUTATION := "mutation"

  function Spelled(outcome: MutationOutcome): string {
    match outcome
    case NotWritten => "not_written"
    case Written => "written"
    case WriteUnknown => "write_unknown"
  }

  /** An outcome this build can read, or none. */
  function ReadOutcome(mutation: Json): Option<MutationOutcome> {
    if !mutation.Object? then None
    else if Field(mutation.fields, OUTCOME) == Text("not_written") then Some(NotWritten)
    else if Field(mutation.fields, OUTCOME) == Text("written") then Some(Written)
    else if Field(mutation.fields, OUTCOME) == Text("write_unknown") then Some(WriteUnknown)
    else None
  }

  lemma OutcomeRoundTrip(outcome: MutationOutcome, rest: Fields)
    ensures ReadOutcome(Object(rest[OUTCOME := Text(Spelled(outcome))])) == Some(outcome)
  {
    assert "not_written"[0] == 'n' && "written"[0] == 'w' && "write_unknown"[0] == 'w';
    assert |"written"| == 7 && |"write_unknown"| == 13;
  }

  /** And nothing else is read as one. */
  lemma OutcomeIff(mutation: Json, outcome: MutationOutcome)
    ensures ReadOutcome(mutation) == Some(outcome)
            <==> mutation.Object? && "outcome" in mutation.fields
                 && mutation.fields["outcome"] == Text(match outcome
                                                       case NotWritten => "not_written"
                                                       case Written => "written"
                                                       case WriteUnknown => "write_unknown")
  {
    assert "not_written"[0] == 'n' && "written"[0] == 'w' && "write_unknown"[0] == 'w';
    assert |"written"| == 7 && |"write_unknown"| == 13;
  }

  /** What a failed call lets its caller conclude about the write. */
  function OutcomeOfFailure(dispatched: bool): MutationOutcome {
    if dispatched then WriteUnknown else NotWritten
  }

  // --------------------------------------------------------------------------------- the hops

  /** The helper's answer to the agent: a result, or a refusal or crash that says nothing. */
  predicate HelperSays(answer: HelperService.Answer, handled: Handled) {
    match answer
    case Answered(result, replayed) =>
      handled.Done? && OUTCOME in handled.result && handled.result[OUTCOME] == Text(Spelled(result.outcome))
    case _ => handled.Declined?
  }

  /** The agent's answer to the backend: what the helper said, passed on unread, or what the
      failed call amounts to. */
  function AgentMutation(called: Called): Fields {
    match called
    case Got(result) => result
    case Failed(dispatched) => map[OUTCOME := Text(Spelled(OutcomeOfFailure(dispatched)))]
  }

  predicate AgentSays(called: Called, handled: Handled) {
    handled.Done? && MUTATION in handled.result && handled.result[MUTATION] == Object(AgentMutation(called))
  }

  /** What the backend records. Never an exception: an answer it cannot read was certainly
      dispatched. */
  function BackendOutcome(called: Called): MutationOutcome {
    match called
    case Failed(dispatched) => OutcomeOfFailure(dispatched)
    case Got(answer) =>
      var read := ReadOutcome(Field(answer, MUTATION));
      if read.Some? then read.value else WriteUnknown
  }

  /** A far side a request may or may not have reached, and what it made of it, if it lived to
      answer. */
  datatype Far = NotReached | Reached(handled: Option<Handled>)

  /** A request, the channel it goes over, and what that does. */
  datatype Hop = Hop(c: Codec, s: Syntax, id: string, name: string, params: Fields, exchange: Exchange)

  /** A channel both ends speak, and an id of its own for this request. */
  ghost predicate Speaks(hop: Hop) {
    WellFormed(hop.c) && Faithful(hop.s) && hop.id != "" && hop.id != UNCORRELATED
  }

  /** What the far side put on the socket: a refusal from before any handler was reached, nothing
      if it died, and otherwise its answer to this request. */
  ghost predicate Answers(hop: Hop, far: Far, bytes: seq<byte>)
    requires WellFormed(hop.c)
  {
    match far
    case NotReached => exists code, said :: bytes == Sent(EncodeFailure(hop.c, hop.s, UNCORRELATED, code, said))
    case Reached(None) => bytes == []
    case Reached(Some(handled)) =>
      var raw := hop.s.dump(RequestPayload(hop.c, hop.id, hop.name, hop.params));
      exists said :: bytes == Sent(Respond(hop.c, hop.s, raw, handled, said))
  }

  /** What a socket may do: nothing is read by the far side before the write has returned, a
      missing socket file is found out before that, and what comes back is what the far side
      wrote, as far as it got. */
  ghost predicate HonestHop(hop: Hop, far: Far)
    requires WellFormed(hop.c)
  {
    match hop.exchange
    case Interrupted(written, fault) => (fault == FileMissing ==> !written) && (!written ==> far == NotReached)
    case Incoming(bytes) => exists whole :: Answers(hop, far, whole) && bytes <= whole
  }

  ghost predicate Made(hop: Hop, called: Called, far: Far) {
    && Speaks(hop)
    && ComesTo(hop.c, hop.s, hop.id, hop.name, hop.params, hop.exchange, called)
    && HonestHop(hop, far)
    && (EncodeRequest(hop.c, hop.s, hop.id, hop.name, hop.params).Refused? ==> far == NotReached)
  }

  /** Neither half of the answer can be made up: a result is the far side's, and a request that
      is said not to have left did not arrive. */
  lemma HopKeepsItsWord(hop: Hop, called: Called, far: Far)
    requires Made(hop, called, far)
    ensures called.Got? ==> far == Reached(Some(Done(called.result)))
    ensures called == Failed(false) ==> far == NotReached
  {
    if called.Got? {
      var whole :| Answers(hop, far, whole) && hop.exchange.bytes <= whole;
      ResultIsTheFarSides(hop, far, whole, called.result);
    }
  }

  lemma ResultIsTheFarSides(hop: Hop, far: Far, whole: seq<byte>, result: Fields)
    requires Speaks(hop) && EncodeRequest(hop.c, hop.s, hop.id, hop.name, hop.params).Ok?
    requires hop.exchange.Incoming? && Answers(hop, far, whole) && hop.exchange.bytes <= whole
    requires FirstResponse(hop.c, hop.s, hop.exchange.bytes) == Some(Response(hop.id, true, result))
    ensures far == Reached(Some(Done(result)))
  {
    var bytes := hop.exchange.bytes;
    hide FirstResponse, EncodeRequest, EncodeFailure, Respond, RequestPayload, Faithful, WellFormed;
    match far {
      case NotReached =>
        var code, said :| whole == Sent(EncodeFailure(hop.c, hop.s, UNCORRELATED, code, said));
        FailureIsReadBack(hop.c, hop.s, UNCORRELATED, code, said, bytes);
      case Reached(None) =>
        NothingIsRead(hop.c, hop.s);
      case Reached(Some(handled)) =>
        var said :| whole == Sent(Respond(hop.c, hop.s, hop.s.dump(RequestPayload(hop.c, hop.id, hop.name, hop.params)),
                                          handled, said));
        CallsAreAnsweredByTheHandler(hop.c, hop.s, hop.id, hop.name, hop.params, handled, said, bytes);
    }
  }

  lemma NothingIsRead(c: Codec, s: Syntax)
    ensures FirstResponse(c, s, []).None?
  {
  }

  /** A result that fits in a frame and comes back whole. */
  ghost predicate Delivered(hop: Hop, result: Fields) {
    && Speaks(hop)
    && EncodeRequest(hop.c, hop.s, hop.id, hop.name, hop.params).Ok?
    && ParamsAllowed(hop.c, hop.name, hop.params)
    && EncodeOk(hop.c, hop.s, hop.id, result).Ok?
    && hop.exchange == Incoming(EncodeOk(hop.c, hop.s, hop.id, result).value)
  }

  /** Where nothing fails, the caller gets what the far side came to. */
  lemma DeliveredIsMade(hop: Hop, result: Fields)
    requires Delivered(hop, result)
    ensures Made(hop, Got(result), Reached(Some(Done(result))))
  {
    var raw := hop.s.dump(RequestPayload(hop.c, hop.id, hop.name, hop.params));
    RequestRoundTrip(hop.c, hop.s, hop.id, hop.name, hop.params);
    var frame := EncodeRequest(hop.c, hop.s, hop.id, hop.name, hop.params).value;
    assert frame[..|frame| - 1] == raw;
    assert Respond(hop.c, hop.s, raw, Done(result), map[]) == EncodeOk(hop.c, hop.s, hop.id, result);
    OkIsReadBack(hop.c, hop.s, hop.id, result, hop.exchange.bytes);
    hide FirstResponse, Respond, EncodeRequest, EncodeOk, RequestPayload;
    assert Answers(hop, Reached(Some(Done(result))), hop.exchange.bytes);
    assert hop.exchange.bytes <= hop.exchange.bytes;
  }

  // ----------------------------------------------------------------------------- the whole path

  /** What the helper did with a fresh attempt: the frame it sent, if it sent one, what the
      kernel answered, and what that came to. */
  datatype Write = Write(
    sent: Option<seq<byte>>,
    sequence: int,
    exchange: MtuSetter.MutateExchange,
    attempted: MtuSetter.Attempted)

  /** One write, end to end: how often the kernel accepted it, what the helper made of it if it
      was reached, and what each caller was told. */
  datatype Journey = Journey(
    accepted: nat,
    write: Write,
    answer: Option<HelperService.Answer>,
    helper: Far,
    agentCall: Called,
    agent: Far,
    backendCall: Called)

  /** The kernel is honest, and the helper reports what came of the frame it sent; it sends none
      for a request that never arrived. */
  predicate HelperHonest(j: Journey) {
    var w := j.write;
    && MtuSetter.KernelHonest(w.sent, w.sequence, w.exchange, j.accepted)
    && (j.helper == NotReached ==> w.sent.None?)
    && (w.sent.Some? ==> MtuSetter.Reports(w.sequence, w.exchange, w.attempted))
    && (w.sent.None? && w.attempted.Came? ==> w.attempted.result.outcome == NotWritten)
    && (j.helper.Reached? && j.helper.handled.Some? ==>
          j.answer.Some? && HelperSays(j.answer.value, j.helper.handled.value))
    && (j.answer.Some? && j.answer.value.Answered? ==> w.attempted == MtuSetter.Came(j.answer.value.result))
  }

  /** The agent asks the helper only when it was asked itself, and answers with what it was told. */
  predicate AgentHonest(j: Journey) {
    && (j.agent == NotReached ==> j.helper == NotReached)
    && (j.agent.Reached? && j.agent.handled.Some? ==> AgentSays(j.agentCall, j.agent.handled.value))
  }

  ghost predicate Travelled(j: Journey, toHelper: Hop, toAgent: Hop) {
    && HelperHonest(j)
    && AgentHonest(j)
    && Made(toHelper, j.agentCall, j.helper)
    && Made(toAgent, j.backendCall, j.agent)
  }

  lemma HelperOutcomeIsRead(answer: HelperService.Answer, handled: Handled)
    requires HelperSays(answer, handled) && handled.Done?
    ensures answer.Answered? && ReadOutcome(Object(handled.result)) == Some(answer.result.outcome)
  {
    OutcomeRoundTrip(answer.result.outcome, handled.result);
    assert handled.result[OUTCOME := Text(Spelled(answer.result.outcome))] == handled.result;
  }

  lemma AgentOutcomeIsRead(called: Called)
    requires called.Failed?
    ensures ReadOutcome(Object(AgentMutation(called))) == Some(OutcomeOfFailure(called.dispatched))
  {
    OutcomeRoundTrip(OutcomeOfFailure(called.dispatched), map[]);
  }

  /** Three hops, any faults, one write: if the backend records "not written" the kernel accepted
      nothing, if it records "written" the kernel accepted exactly one. */
  lemma ThreeHopSoundness(j: Journey, toHelper: Hop, toAgent: Hop)
    requires Travelled(j, toHelper, toAgent)
    ensures Sound(BackendOutcome(j.backendCall), j.accepted)
  {
    HopKeepsItsWord(toHelper, j.agentCall, j.helper);
    HopKeepsItsWord(toAgent, j.backendCall, j.agent);
    var w := j.write;
    if w.attempted.Came? { MtuSetter.ReportsAreSound(w.sent, w.sequence, w.exchange, j.accepted, w.attempted); }
    hide Made, ReadOutcome;
    if j.backendCall.Got? {
      if j.agentCall.Failed? { AgentOutcomeIsRead(j.agentCall); }
      else { HelperOutcomeIsRead(j.answer.value, j.helper.handled.value); }
    }
  }

  /** And it is no more cautious than it has to be: "written" and "not written" are recorded
      exactly when every hop the answer needed came back with it, or the first one that failed
      had not sent. Everything else is "unknown". */
  lemma DefiniteOutcomesIff(j: Journey, toHelper: Hop, toAgent: Hop)
    requires Travelled(j, toHelper, toAgent)
    ensures BackendOutcome(j.backendCall) == Written <==>
              && j.backendCall.Got? && j.agentCall.Got?
              && j.answer.Some? && j.answer.value.Answered? && j.answer.value.result.outcome == Written
    ensures BackendOutcome(j.backendCall) == NotWritten <==>
              || j.backendCall == Failed(false)
              || (j.backendCall.Got? && j.agentCall == Failed(false))
              || (j.backendCall.Got? && j.agentCall.Got?
                  && j.answer.Some? && j.answer.value.Answered? && j.answer.value.result.outcome == NotWritten)
  {
    HopKeepsItsWord(toHelper, j.agentCall, j.helper);
    HopKeepsItsWord(toAgent, j.backendCall, j.agent);
    hide Made, ReadOutcome;
    if j.backendCall.Got? {
      if j.agentCall.Failed? { AgentOutcomeIsRead(j.agentCall); }
      else { HelperOutcomeIsRead(j.answer.value, j.helper.handled.value); }
    }
  }

  /** Where nothing fails on the way, what is recorded is exactly what the helper reported. */
  lemma FaultlessJourneysAreExact(j: Journey, toHelper: Hop, toAgent: Hop, reply: Fields, answer: Fields)
    requires HelperHonest(j) && AgentHonest(j)
    requires j.helper == Reached(Some(Done(reply))) && j.agentCall == Got(reply) && Delivered(toHelper, reply)
    requires j.agent == Reached(Some(Done(answer))) && j.backendCall == Got(answer) && Delivered(toAgent, answer)
    ensures Travelled(j, toHelper, toAgent)
    ensures j.answer.Some? && j.answer.value.Answered?
    ensures BackendOutcome(j.backendCall) == j.answer.value.result.outcome
  {
    DeliveredIsMade(toHelper, reply);
    DeliveredIsMade(toAgent, answer);
    hide Made, Delivered, ReadOutcome;
    HelperOutcomeIsRead(j.answer.value, Done(reply));
  }

  /** The helper has done all it will about this write: it came to an answer, or was never asked. */
  predicate HelperIsDone(j: Journey) {
    j.answer.Some? || j.helper == NotReached
  }

  /** What the write path lets a caller be told about a request is what three honest hops let it
      be told: the request may still be anywhere inside the helper, and is closed with the
      kernel's verdict once the helper is done with it. */
  lemma JourneysAnswerRequests(j: Journey, toHelper: Hop, toAgent: Hop, request: WritePath.Request)
    requires Travelled(j, toHelper, toAgent)
    requires HelperIsDone(j) ==> request.stage == WritePath.Closed(j.accepted == 1)
    ensures WritePath.Answerable(request, BackendOutcome(j.backendCall))
  {
    ThreeHopSoundness(j, toHelper, toAgent);
    if BackendOutcome(j.backendCall) != WriteUnknown { DefiniteMeansDone(j, toHelper, toAgent); }
    hide Travelled, BackendOutcome;
  }

  /** Nobody hears anything definite before the helper is done. */
  lemma DefiniteMeansDone(j: Journey, toHelper: Hop, toAgent: Hop)
    requires Travelled(j, toHelper, toAgent) && BackendOutcome(j.backendCall) != WriteUnknown
    ensures HelperIsDone(j)
  {
    DefiniteOutcomesIff(j, toHelper, toAgent);
    HopKeepsItsWord(toHelper, j.agentCall, j.helper);
    HopKeepsItsWord(toAgent, j.backendCall, j.agent);
    hide Made, BackendOutcome;
  }
}
