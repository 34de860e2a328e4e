/** The helper's attempt memory: the same attempt, asked again, is answered with what happened
    the first time, for as long as it is remembered. */
module HelperService {
  import opened Bytes
  import opened Outcomes
  import opened Remembering
  import opened Netlink
  import opened MtuSetter

  type AttemptId = seq<byte>

  /** How many completed attempts are remembered. */
  const ATTEMPT_MEMORY := 256

  const MAX_IFINDEX := 0x7fff_ffff

  datatype Entry = Entry(id: AttemptId, result: MutationResult)

  // ------------------------------------------------------------------------------ parameters

  /** A parameter as it arrives, text one byte a character. */
  datatype Value = Null | Bool(flag: bool) | Int(number: int) | Text(text: seq<byte>) | Other

  datatype Params = Params(attempt: Value, ifindex: Value, expected: Value, desired: Value, name: Value)

  predicate IdByte(c: int) {
    48 <= c <= 57 || 65 <= c <= 90 || 97 <= c <= 122 || c in {45, 46, 58, 95}
  }

  /** A short opaque identifier. The pattern's end also matches before one final newline. */
  predicate AttemptIdOk(v: Value) {
    v.Text? && IdOk(if |v.text| > 0 && v.text[|v.text| - 1] == 10 then v.text[..|v.text| - 1] else v.text)
  }

  predicate IdOk(id: seq<byte>) {
    1 <= |id| <= 128 && forall i :: 0 <= i < |id| ==> IdByte(id[i])
  }

  predicate IntOk(v: Value, minimum: int, maximum: int) {
    v.Int? && minimum <= v.number <= maximum
  }

  predicate NameOk(v: Value) {
    v.Null? || (v.Text? && 1 <= |v.text| <= 15)
  }

  /** What the helper accepts before it looks at anything else. */
  predicate ParamsOk(p: Params) {
    && AttemptIdOk(p.attempt)
    && IntOk(p.ifindex, 1, MAX_IFINDEX)
    && IntOk(p.expected, 0, MAX_MTU)
    && IntOk(p.desired, 0, MAX_MTU)
    && NameOk(p.name)
  }

  function WantedOf(p: Params): (w: Wanted)
    requires ParamsOk(p)
    ensures 1 <= w.ifindex < 0x8000_0000
  {
    Wanted(p.ifindex.number, p.expected.number, p.desired.number, if p.name.Null? then None else Some(p.name.text))
  }

  // ------------------------------------------------------------------------------- the memory

  function Lookup(memory: seq<Entry>, id: AttemptId): (e: Option<Entry>)
    ensures e.Some? ==> e.value in memory && e.value.id == id
    ensures e.None? ==> forall i :: 0 <= i < |memory| ==> memory[i].id != id
  {
    if memory == [] then None
    else if memory[|memory| - 1].id == id then Some(memory[|memory| - 1])
    else Lookup(memory[..|memory| - 1], id)
  }

  /** A helper's history: what it remembers, everything it ever remembered, and every attempt it
      took to the kernel. */
  datatype State = State(memory: seq<Entry>, remembered: seq<Entry>, exchanges: seq<AttemptId>)

  const START := State([], [], [])

  /** One request: replayed if remembered, otherwise taken to the kernel, and remembered if it
      came to a result. */
  function Ask(s: State, id: AttemptId, attempted: Attempted): State {
    if Lookup(s.memory, id).Some? then s
    else
      var tried := s.(exchanges := s.exchanges + [id]);
      match attempted
      case Raised => tried
      case Came(result) =>
        tried.(memory := Recent(s.memory + [Entry(id, result)], ATTEMPT_MEMORY),
               remembered := s.remembered + [Entry(id, result)])
  }

  datatype Request = Request(id: AttemptId, attempted: Attempted)

  function Run(s: State, requests: seq<Request>): State
    decreases |requests|
  {
    if requests == [] then s else Run(Ask(s, requests[0].id, requests[0].attempted), requests[1..])
  }

  ghost predicate Reachable(s: State) {
    exists requests :: Run(START, requests) == s
  }

  predicate Distinct(memory: seq<Entry>) {
    forall i, j :: 0 <= i < j < |memory| ==> memory[i].id != memory[j].id
  }

  predicate Ok(s: State) {
    s.memory == Recent(s.remembered, ATTEMPT_MEMORY) && Distinct(s.memory)
  }

  lemma AskKeepsOk(s: State, id: AttemptId, attempted: Attempted)
    requires Ok(s)
    ensures Ok(Ask(s, id, attempted))
  {
    if Lookup(s.memory, id).None? && attempted.Came? {
      var e := Entry(id, attempted.result);
      RecentAppend(s.remembered, ATTEMPT_MEMORY, e);
      var all := s.memory + [e];
      var kept := Recent(all, ATTEMPT_MEMORY);
      var cut := |all| - |kept|;
      assert forall i :: 0 <= i < |kept| ==> kept[i] == all[cut + i];
      assert Distinct(all);
      forall i, j | 0 <= i < j < |kept| ensures kept[i].id != kept[j].id {
        assert all[cut + i].id != all[cut + j].id;
      }
    }
  }

  lemma {:induction false} RunKeepsOk(s: State, requests: seq<Request>)
    requires Ok(s)
    ensures Ok(Run(s, requests))
    decreases |requests|
  {
    if requests != [] {
      AskKeepsOk(s, requests[0].id, requests[0].attempted);
      RunKeepsOk(Ask(s, requests[0].id, requests[0].attempted), requests[1..]);
    }
  }

  lemma ReachableIsOk(s: State)
    requires Reachable(s)
    ensures Ok(s)
  {
    var requests :| Run(START, requests) == s;
    RunKeepsOk(START, requests);
  }

  /** A remembered attempt reaches the kernel no more, and the result it is answered with is the
      one it first came to. */
  lemma RememberedIsNotRepeated(s: State, id: AttemptId, attempted: Attempted)
    requires Reachable(s) && Lookup(s.memory, id).Some?
    ensures Ask(s, id, attempted).exchanges == s.exchanges
    ensures Lookup(s.memory, id).value in s.remembered
  {
    ReachableIsOk(s);
    var e := Lookup(s.memory, id).value;
    var i :| 0 <= i < |s.memory| && s.memory[i] == e;
    assert s.remembered[|s.remembered| - |s.memory| + i] == e;
  }

  function Ids(entries: seq<Entry>): set<AttemptId> {
    set i | 0 <= i < |entries| :: entries[i].id
  }

  lemma {:induction false} DistinctIds(memory: seq<Entry>)
    requires Distinct(memory)
    ensures |Ids(memory)| == |memory|
    decreases |memory|
  {
    if memory != [] {
      var last := |memory| - 1;
      DistinctIds(memory[..last]);
      assert Ids(memory) == Ids(memory[..last]) + {memory[last].id};
      assert memory[last].id !in Ids(memory[..last]);
    }
  }

  /** An attempt that came to a result is taken to the kernel again only after as many distinct
      newer attempts as the memory holds have come to theirs. */
  lemma RepeatedOnlyWhenForgotten(s: State, id: AttemptId, attempted: Attempted, k: nat)
    requires Reachable(s) && k < |s.remembered| && s.remembered[k].id == id
    requires Ask(s, id, attempted).exchanges != s.exchanges
    ensures |Ids(s.remembered[k + 1..])| >= ATTEMPT_MEMORY
    ensures id !in Ids(s.memory) && Ids(s.memory) <= Ids(s.remembered[k + 1..])
  {
    ReachableIsOk(s);
    var cut := |s.remembered| - |s.memory|;
    assert forall i :: cut <= i < |s.remembered| ==> s.remembered[i] == s.memory[i - cut];
    assert k < cut;
    DistinctIds(s.memory);
    var newer := s.remembered[k + 1..];
    forall i | 0 <= i < |s.memory| ensures s.memory[i].id in Ids(newer) {
      assert newer[cut + i - (k + 1)] == s.memory[i];
    }
    SubsetIsSmaller(Ids(s.memory), Ids(newer));
  }

  /** Exactly when a request reaches the kernel: every result this attempt ever came to has been
      pushed out by at least as many newer ones as the memory holds. An attempt that never came to
      one always does, however often it was taken there before. */
  lemma ReachesTheKernelIff(s: State, id: AttemptId, attempted: Attempted)
    requires Reachable(s)
    ensures Ask(s, id, attempted).exchanges == s.exchanges + [id]
            <==> forall k :: 0 <= k < |s.remembered| && s.remembered[k].id == id ==> |s.remembered| - k > ATTEMPT_MEMORY
    ensures Ask(s, id, attempted).exchanges == s.exchanges
            <==> exists k :: 0 <= k < |s.remembered| && s.remembered[k].id == id && |s.remembered| - k <= ATTEMPT_MEMORY
  {
    ReachableIsOk(s);
    var cut := |s.remembered| - |s.memory|;
    assert forall i :: cut <= i < |s.remembered| ==> s.remembered[i] == s.memory[i - cut];
    if Lookup(s.memory, id).Some? {
      var i :| 0 <= i < |s.memory| && s.memory[i].id == id;
      assert s.remembered[cut + i].id == id && |s.remembered| - (cut + i) <= ATTEMPT_MEMORY;
    } else {
      assert forall i :: 0 <= i < |s.memory| ==> s.memory[i].id != id;
    }
  }

  /** Asked twice in a row, an attempt is taken to the kernel twice exactly when it was not
      remembered and the first time raised: what raises leaves nothing behind to replay. */
  lemma RaisedIsRepeated(s: State, id: AttemptId, first: Attempted, second: Attempted)
    requires Reachable(s)
    ensures Ask(Ask(s, id, first), id, second).exchanges == s.exchanges + [id, id]
            <==> Lookup(s.memory, id).None? && first == Raised
  {
    if Lookup(s.memory, id).None? && first.Came? {
      var all := s.memory + [Entry(id, first.result)];
      var kept := Recent(all, ATTEMPT_MEMORY);
      assert kept[|kept| - 1] == all[|all| - 1];
      assert Lookup(kept, id).Some?;
    }
    assert |s.exchanges + [id, id]| == |s.exchanges| + 2;
    assert s.exchanges + [id] + [id] == s.exchanges + [id, id];
  }

  // ------------------------------------------------------------------------------- the helper

  datatype Answer = InvalidParams | Answered(result: MutationResult, replayed: bool) | InternalError

  class Service {
    var attempts: seq<Entry>
    const setter: InterfaceMtuSetter

    constructor ()
      ensures attempts == [] && fresh(setter) && setter.sequence == 0
    {
      attempts := [];
      setter := new InterfaceMtuSetter();
    }

    /** Forgets the oldest beyond the memory's size. */
    method Remember(id: AttemptId, result: MutationResult)
      modifies this
      ensures attempts == Recent(old(attempts) + [Entry(id, result)], ATTEMPT_MEMORY)
    {
      attempts := attempts + [Entry(id, result)];
      ghost var all := attempts;
      while |attempts| > ATTEMPT_MEMORY
        invariant |Recent(all, ATTEMPT_MEMORY)| <= |attempts| <= |all|
        invariant attempts == all[|all| - |attempts|..]
        decreases |attempts|
      {
        attempts := attempts[1..];
      }
    }

    method IsIdCharacter(c: char) returns (ok: bool)
      ensures ok <==> IdByte(c as int)
    {
      ok := '0' <= c <= '9' || 'A' <= c <= 'Z' || 'a' <= c <= 'z' || c in {'.', '_', ':', '-'};
    }

    /** Every parameter, in the order the helper looks at them. An identifier is 1 to 128 letters,
        digits and `.`, `_`, `:` or `-`; its pattern lets one newline follow. */
    method Accepts(p: Params) returns (ok: bool)
      ensures ok <==> ParamsOk(p)
    {
      hide IdByte;
      if !p.attempt.Text? { return false; }
      var id := p.attempt.text;
      if |id| > 0 && id[|id| - 1] == 10 { id := id[..|id| - 1]; }
      if id == [] || |id| > 128 { return false; }
      var i := 0;
      while i < |id|
        invariant 0 <= i <= |id|
        invariant forall j :: 0 <= j < i ==> IdByte(id[j])
      {
        var allowed := IsIdCharacter(id[i] as char);
        if !allowed { return false; }
        i := i + 1;
      }
      if !p.ifindex.Int? || p.ifindex.number < 1 || p.ifindex.number > 2147483647 { return false; }
      if !p.expected.Int? || p.expected.number < 0 || p.expected.number > 65536 { return false; }
      if !p.desired.Int? || p.desired.number < 0 || p.desired.number > 65536 { return false; }
      if p.name.Null? { return true; }
      ok := p.name.Text? && 1 <= |p.name.text| <= 15;
    }

    /** The one mutating operation. Nothing is asked of the kernel before the parameters are
        accepted, nor for an attempt that is remembered. */
    method SetInterfaceMtu(p: Params, query: QueryExchange, exchange: MutateExchange)
      returns (answer: Answer, sent: Option<seq<byte>>)
      requires setter.sequence + 2 < U32_LIMIT
      modifies this, setter
      ensures !ParamsOk(p) ==>
                answer == InvalidParams && sent.None?
                && attempts == old(attempts) && setter.sequence == old(setter.sequence)
      ensures ParamsOk(p) && Lookup(old(attempts), p.attempt.text).Some? ==>
                answer == Answered(Lookup(old(attempts), p.attempt.text).value.result, true) && sent.None?
                && attempts == old(attempts) && setter.sequence == old(setter.sequence)
      ensures ParamsOk(p) && Lookup(old(attempts), p.attempt.text).None? ==>
                var wanted := Wanted(p.ifindex.number, p.expected.number, p.desired.number,
                                     if p.name.Null? then None else Some(p.name.text));
                var sequence := old(setter.sequence) + 2;
                var attempted := if answer.Answered? then Came(answer.result) else Raised;
                && answer != InvalidParams && (answer.Answered? ==> !answer.replayed)
                && (sent.Some? <==> SomeMatch(wanted, sequence - 1, query))
                && (sent.Some? ==> sent.value == SetMtuBytes(wanted.ifindex, wanted.desired, sequence))
                && (sent.Some? ==> Reports(sequence, exchange, attempted))
                && (sent.None? && answer.Answered? ==>
                      answer.result.outcome == NotWritten
                      && FirstRefusal(wanted, sequence - 1, query, answer.result.reason))
                && (answer == InternalError <==> CannotBeRead(wanted, sequence - 1, query, exchange))
                && attempts == Ask(State(old(attempts), [], []), p.attempt.text, attempted).memory
    {
      hide IdOk, SetMtuBytes, SomeMatch, Reports, CannotBeRead, FirstRefusal, Recent, SawWhatWasRead, Matches;
      var acceptable := Accepts(p);
      if !acceptable { return InvalidParams, None; }
      var known := Lookup(attempts, p.attempt.text);
      if known.Some? { return Answered(known.value.result, true), None; }
      var attempted, queried;
      attempted, queried, sent := setter.SetMtu(WantedOf(p), query, exchange);
      if attempted.Raised? { return InternalError, sent; }
      Remember(p.attempt.text, attempted.result);
      answer := Answered(attempted.result, false);
    }
  }
}
