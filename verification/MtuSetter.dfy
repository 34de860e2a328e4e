/** The privileged write: read the link, refuse what does not match, send one frame, and report
    one of three outcomes. The kernel is what it answers. */
module MtuSetter {
  import opened Bytes
  import opened Outcomes
  import opened Netlink

  /** What the transport brings back from the query: bytes, or nothing that counts as a read. */
  datatype QueryExchange = QueryAnswered(reply: seq<byte>) | QueryRefused

  /** And from the mutation: bytes from the kernel, or a failure that knows whether the frame
      had left. */
  datatype MutateExchange = MutateAnswered(reply: seq<byte>) | MutateFailed(dispatched: bool)

  datatype Reason =
    | MtuOutOfRange
    | ExpectedMtuOutOfRange
    | DesiredEqualsCurrent
    | LinkNotRead(verdict: Option<QueryVerdict>)
    | CurrentMtuUnreadable
    | InterfaceIdentityMismatch
    | MtuPreconditionFailed
    | ExchangeFailed
    | NotAcknowledged(ack: Ack)
    | KernelAcknowledged
    | KernelRejected(errno: int)

  datatype MutationResult = MutationResult(outcome: MutationOutcome, reason: Reason, seen: Option<LinkFacts>)

  /** What a call comes to: a result, or an exception nobody in the helper catches, raised by an
      error message that cannot be told. */
  datatype Attempted = Came(result: MutationResult) | Raised

  datatype Wanted = Wanted(ifindex: int, expected: int, desired: int, name: Option<seq<byte>>)

  predicate Addressable(wanted: Wanted, sequence: int) {
    0 <= wanted.ifindex < 0x8000_0000 && 0 <= sequence < U32_LIMIT
  }

  predicate InRange(mtu: int) {
    MIN_MTU <= mtu <= MAX_MTU
  }

  /** The comparison that lets a frame exist: this read found this index, this name and this
      MTU, and the value wanted is another one in range. */
  predicate Matches(wanted: Wanted, sequence: int, query: QueryExchange, facts: LinkFacts) {
    && InRange(wanted.desired)
    && InRange(wanted.expected)
    && wanted.desired != wanted.expected
    && query.QueryAnswered?
    && InterpretLink(query.reply, wanted.ifindex, sequence) == Found(facts)
    && facts.ifindex == wanted.ifindex
    && facts.mtu == Some(wanted.expected)
    && (wanted.name.Some? ==> facts.name == wanted.name)
  }

  ghost predicate SomeMatch(wanted: Wanted, sequence: int, query: QueryExchange) {
    exists facts :: Matches(wanted, sequence, query, facts)
  }

  /** The check that refuses first, and what it is called. */
  predicate FirstRefusal(wanted: Wanted, sequence: int, query: QueryExchange, reason: Reason) {
    var asks := InRange(wanted.desired) && InRange(wanted.expected) && wanted.desired != wanted.expected;
    var verdict := if query.QueryAnswered? then Some(InterpretLink(query.reply, wanted.ifindex, sequence)) else None;
    var named := verdict.Some? && verdict.value.Found?
                 && (wanted.name.Some? ==> verdict.value.facts.name == wanted.name);
    match reason
    case MtuOutOfRange => !InRange(wanted.desired)
    case ExpectedMtuOutOfRange => InRange(wanted.desired) && !InRange(wanted.expected)
    case DesiredEqualsCurrent =>
      InRange(wanted.desired) && InRange(wanted.expected) && wanted.desired == wanted.expected
    case LinkNotRead(why) => asks && why == verdict && (verdict.None? || !verdict.value.Found?)
    case CurrentMtuUnreadable => asks && verdict.Some? && verdict.value.Found? && verdict.value.facts.mtu.None?
    case InterfaceIdentityMismatch =>
      asks && verdict.Some? && verdict.value.Found? && verdict.value.facts.mtu.Some? && !named
    case MtuPreconditionFailed =>
      asks && named && verdict.value.facts.mtu.Some? && verdict.value.facts.mtu.value != wanted.expected
    case _ => false
  }

  /** What became of the write, in terms of what was on the wire: a code of zero, and nothing else,
      is a write; any other code is a refusal; everything else leaves it open once the frame left. */
  predicate Reports(sequence: int, exchange: MutateExchange, attempted: Attempted) {
    match exchange
    case MutateFailed(dispatched) => Comes(attempted, if dispatched then WriteUnknown else NotWritten, ExchangeFailed)
    case MutateAnswered(reply) =>
      match Acknowledgement(reply, sequence)
      case AckUnreadable => attempted == Raised
      case Code(errno) =>
        if errno == 0 then Comes(attempted, Written, KernelAcknowledged)
        else Comes(attempted, NotWritten, KernelRejected(errno))
      case ack => Comes(attempted, WriteUnknown, NotAcknowledged(ack))
  }

  predicate Comes(attempted: Attempted, outcome: MutationOutcome, reason: Reason) {
    attempted.Came? && attempted.result.outcome == outcome && attempted.result.reason == reason
  }

  /** What was seen of the link by the time it was refused: nothing, where no link was found. */
  predicate SawWhatWasRead(wanted: Wanted, sequence: int, query: QueryExchange, result: MutationResult) {
    result.seen == if result.reason in {CurrentMtuUnreadable, InterfaceIdentityMismatch, MtuPreconditionFailed}
                      && query.QueryAnswered? && InterpretLink(query.reply, wanted.ifindex, sequence).Found?
                   then Some(InterpretLink(query.reply, wanted.ifindex, sequence).facts) else None
  }

  function Refusal(reason: Reason, seen: Option<LinkFacts>): Attempted {
    Came(MutationResult(NotWritten, reason, seen))
  }

  lemma FoundIsAsked(reply: seq<byte>, ifindex: int, sequence: int)
    requires InterpretLink(reply, ifindex, sequence).Found?
    ensures InterpretLink(reply, ifindex, sequence).facts.ifindex == ifindex
  {
    var split := Messages(reply, 0);
    var k := FoundIsCorrelated(split.messages, split.malformed, ifindex, sequence);
  }

  /** The replies nothing in the helper can make sense of: an error that cannot be told, in
      answer to the query or, once a frame was sent, to the frame. */
  ghost predicate CannotBeRead(wanted: Wanted, sequence: int, query: QueryExchange, exchange: MutateExchange) {
    var asks := InRange(wanted.desired) && InRange(wanted.expected) && wanted.desired != wanted.expected;
    || (asks && query.QueryAnswered? && InterpretLink(query.reply, wanted.ifindex, sequence) == Unreadable)
    || (SomeMatch(wanted, sequence, query) && exchange.MutateAnswered?
        && Acknowledgement(exchange.reply, sequence + 1) == AckUnreadable)
  }

  class InterfaceMtuSetter {
    var sequence: nat

    constructor ()
      ensures sequence == 0
    {
      sequence := 0;
    }

    /** Everything that can refuse the write, refused before a mutating frame can exist. */
    method Check(wanted: Wanted, query: QueryExchange)
      returns (link: Option<LinkFacts>, refusal: Attempted, asked: bool)
      requires Addressable(wanted, sequence + 1)
      modifies this
      ensures asked <==> InRange(wanted.desired) && InRange(wanted.expected) && wanted.desired != wanted.expected
      ensures sequence == old(sequence) + if asked then 1 else 0
      ensures link.Some? ==> asked && Matches(wanted, sequence, query, link.value)
      ensures link.None? ==> !SomeMatch(wanted, old(sequence) + 1, query)
      ensures link.None? ==>
                refusal == Raised || (refusal.Came? && refusal.result.outcome == NotWritten
                                      && FirstRefusal(wanted, old(sequence) + 1, query, refusal.result.reason)
                                      && SawWhatWasRead(wanted, old(sequence) + 1, query, refusal.result))
      ensures link.None? && refusal == Raised <==>
                asked && query.QueryAnswered? && InterpretLink(query.reply, wanted.ifindex, sequence) == Unreadable
    {
      asked := false;
      link := None;
      refusal := Raised;
      if !InRange(wanted.desired) { return None, Refusal(MtuOutOfRange, None), false; }
      if !InRange(wanted.expected) { return None, Refusal(ExpectedMtuOutOfRange, None), false; }
      if wanted.desired == wanted.expected { return None, Refusal(DesiredEqualsCurrent, None), false; }

      sequence := sequence + 1;
      asked := true;
      if query.QueryRefused? { return None, Refusal(LinkNotRead(None), None), true; }
      var verdict := ReadLink(query.reply, wanted.ifindex, sequence);
      if verdict == Unreadable { return None, Raised, true; }
      if !verdict.Found? { return None, Refusal(LinkNotRead(Some(verdict)), None), true; }
      var facts := verdict.facts;
      FoundIsAsked(query.reply, wanted.ifindex, sequence);
      if facts.mtu.None? { return None, Refusal(CurrentMtuUnreadable, Some(facts)), true; }
      if wanted.name.Some? && facts.name != wanted.name {
        return None, Refusal(InterfaceIdentityMismatch, Some(facts)), true;
      }
      if facts.mtu.value != wanted.expected { return None, Refusal(MtuPreconditionFailed, Some(facts)), true; }
      link := Some(facts);
    }

    /** One MTU write, or precisely why it did not happen. `queried` and `sent` are the frames
        that left, in that order. */
    method SetMtu(wanted: Wanted, query: QueryExchange, exchange: MutateExchange)
      returns (attempted: Attempted, queried: Option<seq<byte>>, sent: Option<seq<byte>>)
      requires Addressable(wanted, sequence + 2)
      modifies this
      ensures sent.Some? <==> SomeMatch(wanted, old(sequence) + 1, query)
      ensures sent.Some? ==> sent.value == SetMtuBytes(wanted.ifindex, wanted.desired, old(sequence) + 2)
      ensures sent.Some? ==> Reports(old(sequence) + 2, exchange, attempted)
      ensures sent.Some? && attempted.Came? ==>
                attempted.result.seen.Some? && Matches(wanted, old(sequence) + 1, query, attempted.result.seen.value)
      ensures sent.None? ==>
                attempted == Raised || (attempted.Came? && attempted.result.outcome == NotWritten
                                        && FirstRefusal(wanted, old(sequence) + 1, query, attempted.result.reason)
                                        && SawWhatWasRead(wanted, old(sequence) + 1, query, attempted.result))
      ensures attempted == Raised <==> CannotBeRead(wanted, old(sequence) + 1, query, exchange)
      ensures queried.Some?
              <==> InRange(wanted.desired) && InRange(wanted.expected) && wanted.desired != wanted.expected
      ensures queried.Some? ==> queried.value == GetLinkBytes(wanted.ifindex, old(sequence) + 1)
      ensures sent.Some? ==> queried.Some?
      ensures sequence == old(sequence) + (if queried.Some? then 1 else 0) + if sent.Some? then 1 else 0
    {
      hide SetMtuBytes, GetLinkBytes, SetMtuRequest, GetLinkRequest, InterpretLink, Acknowledgement, FirstRefusal,
        SawWhatWasRead;
      queried, sent := None, None;
      var link, refusal, asked := Check(wanted, query);
      if asked {
        queried := Some(GetLinkRequest(wanted.ifindex, sequence));
        GetLinkIsTheseBytes(wanted.ifindex, sequence);
      }
      if link.None? { return refusal, queried, None; }
      assert SomeMatch(wanted, sequence, query);

      sequence := sequence + 1;
      sent := Some(SetMtuRequest(wanted.ifindex, wanted.desired, sequence));
      SetMtuIsTheseBytes(wanted.ifindex, wanted.desired, sequence);
      match exchange
      case MutateFailed(dispatched) =>
        attempted := Came(MutationResult(if dispatched then WriteUnknown else NotWritten, ExchangeFailed, link));
      case MutateAnswered(reply) =>
        var ack := ReadAcknowledgement(reply, sequence);
        match ack {
          case AckUnreadable => attempted := Raised;
          case Code(errno) =>
            attempted := Came(if errno == 0 then MutationResult(Written, KernelAcknowledged, link)
                              else MutationResult(NotWritten, KernelRejected(errno), link));
          case _ => attempted := Came(MutationResult(WriteUnknown, NotAcknowledged(ack), link));
        }
    }
  }

  // ----------------------------------------------------------------------- what it promises

  /** An honest kernel: it accepts at most one write for a frame, none that never left, and what
      a correlated acknowledgement says about the frame is so. Of anything else it says nothing. */
  predicate KernelHonest(sent: Option<seq<byte>>, sequence: int, exchange: MutateExchange, accepted: nat) {
    && accepted <= 1
    && (sent.None? ==> accepted == 0)
    && (exchange == MutateFailed(false) ==> accepted == 0)
    && (exchange.MutateAnswered? && Acknowledgement(exchange.reply, sequence).Code? ==>
          accepted == if Acknowledgement(exchange.reply, sequence).errno == 0 then 1 else 0)
  }

  /** Whatever an honest kernel answers, the reported outcome is sound for what it accepted. */
  lemma ReportsAreSound(sent: Option<seq<byte>>, sequence: int, exchange: MutateExchange, accepted: nat,
                        attempted: Attempted)
    requires KernelHonest(sent, sequence, exchange, accepted) && attempted.Came?
    requires sent.Some? ==> Reports(sequence, exchange, attempted)
    requires sent.None? ==> attempted.result.outcome == NotWritten
    ensures Sound(attempted.result.outcome, accepted)
  {
  }

  /** A mutating frame, read back, is one RTM_NEWLINK for the index that was asked about, with
      an MTU in range that differs from the one the kernel had just reported for it. */
  lemma FramesAreWhatWasChecked(wanted: Wanted, sequence: int, query: QueryExchange, facts: LinkFacts)
    requires Addressable(wanted, sequence + 1) && Matches(wanted, sequence, query, facts)
    ensures var r := Messages(SetMtuRequest(wanted.ifindex, wanted.desired, sequence + 1), 0);
            && !r.malformed
            && |r.messages| == 1
            && r.messages[0].kind == RTM_NEWLINK
            && r.messages[0].sequence == sequence + 1
            && FactsOf(r.messages[0].body) == Some(LinkFacts(facts.ifindex, None, Some(wanted.desired)))
            && MIN_MTU <= wanted.desired <= MAX_MTU
            && facts.mtu.Some? && facts.mtu.value != wanted.desired
  {
    SetMtuRoundTrip(wanted.ifindex, wanted.desired, sequence + 1);
  }
}
