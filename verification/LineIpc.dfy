/** One JSON object a line, over a socket: the envelope both channels share, the framing that
    carries it, and the client call that keeps track of whether its request had left.

    How JSON is spelled is left to a `Syntax`; what matters here is that it reads back what it
    wrote and never writes a raw newline. */
module LineIpc {
  import opened Bytes
  import opened Outcomes

  const NEWLINE: byte := 10

  datatype Json =
    | Null
    | Truth(truth: bool)
    | Number(number: int)
    | Text(text: string)
    | List(items: seq<Json>)
    | Object(fields: map<string, Json>)

  type Fields = map<string, Json>

  datatype Syntax = Syntax(dump: Json -> seq<byte>, parse: seq<byte> -> Option<Json>)

  ghost predicate Faithful(s: Syntax) {
    forall j :: s.parse(s.dump(j)) == Some(j) && NEWLINE !in s.dump(j)
  }

  datatype Code =
    | MalformedMessage
    | UnknownField
    | UnsupportedMethod
    | InvalidParams
    | MessageTooLarge
    | VersionUnsupported

  datatype Checked<T> = Ok(value: T) | Refused(code: Code)

  /** One channel's envelope: its key, its version, its size limit, and its closed sets of
      methods and, where the channel checks them, parameter names. */
  datatype Codec = Codec(
    key: string,
    version: string,
    limit: nat,
    methods: set<string>,
    params: Option<map<string, set<string>>>)

  const ID := "request_id"
  const METHOD := "method"
  const PARAMS := "params"
  const OK := "ok"
  const RESULT := "result"
  const ERROR := "error"
  const CODE := "code"

  const UNCORRELATED := "uncorrelated"

  predicate WellFormed(c: Codec) {
    && c.key !in {ID, METHOD, PARAMS, OK, RESULT, ERROR}
    && (c.params.Some? ==> c.methods <= c.params.value.Keys)
  }

  // -------------------------------------------------------------------------------- encoding

  function Frame(c: Codec, s: Syntax, payload: Fields): Checked<seq<byte>> {
    var body := s.dump(Object(payload));
    if |body| + 1 > c.limit then Refused(MessageTooLarge) else Ok(body + [NEWLINE])
  }

  function EncodeRequest(c: Codec, s: Syntax, id: string, name: string, params: Fields): Checked<seq<byte>> {
    if name !in c.methods then Refused(UnsupportedMethod)
    else
      Frame(c, s, map[c.key := Text(c.version), ID := Text(id), METHOD := Text(name), PARAMS := Object(params)])
  }

  function EncodeOk(c: Codec, s: Syntax, id: string, result: Fields): Checked<seq<byte>> {
    Frame(c, s, map[c.key := Text(c.version), ID := Text(id), OK := Truth(true), RESULT := Object(result)])
  }

  function EncodeFailure(c: Codec, s: Syntax, id: string, code: string, rest: Fields): Checked<seq<byte>> {
    Frame(c, s, map[c.key := Text(c.version), ID := Text(id), OK := Truth(false),
                    ERROR := Object(rest[CODE := Text(code)])])
  }

  // -------------------------------------------------------------------------------- decoding

  /** What `or {}` replaces. */
  predicate Falsy(j: Json) {
    j in {Null, Truth(false), Number(0), Text(""), List([]), Object(map[])}
  }

  function Field(fields: Fields, name: string): Json {
    if name in fields then fields[name] else Null
  }

  /** A frame's object, its keys among `allowed`, of the version spoken here, with its id. */
  function Envelope(c: Codec, s: Syntax, raw: seq<byte>, allowed: set<string>): Checked<(string, Fields)> {
    if |raw| > c.limit then Refused(MessageTooLarge)
    else
      match s.parse(raw)
      case None => Refused(MalformedMessage)
      case Some(j) =>
        if !j.Object? then Refused(MalformedMessage)
        else if !(j.fields.Keys <= allowed + {c.key, ID}) then Refused(UnknownField)
        else if Field(j.fields, c.key) != Text(c.version) then Refused(VersionUnsupported)
        else
          match Field(j.fields, ID)
          case Text(id) => if id == "" then Refused(MalformedMessage) else Ok((id, j.fields))
          case _ => Refused(MalformedMessage)
  }

  datatype Request = Request(id: string, name: string, params: Fields)

  function DecodeRequest(c: Codec, s: Syntax, raw: seq<byte>): Checked<Request>
    requires WellFormed(c)
  {
    match Envelope(c, s, raw, {METHOD, PARAMS})
    case Refused(code) => Refused(code)
    case Ok(envelope) =>
      var fields := envelope.1;
      match Field(fields, METHOD)
      case Text(name) =>
        (if name !in c.methods then Refused(UnsupportedMethod)
         else
           var given := Field(fields, PARAMS);
           var params := if Falsy(given) then Object(map[]) else given;
           if !params.Object? then Refused(InvalidParams)
           else if c.params.Some? && !(params.fields.Keys <= c.params.value[name]) then Refused(UnknownField)
           else Ok(Request(envelope.0, name, params.fields)))
      case _ => Refused(MalformedMessage)
  }

  /** Success and failure exclude each other: `body` is the result of the one, the error of the
      other. */
  datatype Response = Response(id: string, ok: bool, body: Fields)

  function DecodeResponse(c: Codec, s: Syntax, raw: seq<byte>): Checked<Response> {
    match Envelope(c, s, raw, {OK, RESULT, ERROR})
    case Refused(code) => Refused(code)
    case Ok(envelope) =>
      var fields := envelope.1;
      var succeeded := RESULT in fields;
      if succeeded == (ERROR in fields) then Refused(MalformedMessage)
      else if Field(fields, OK) != Truth(succeeded) then Refused(MalformedMessage)
      else
        var body := Field(fields, if succeeded then RESULT else ERROR);
        if !body.Object? then Refused(MalformedMessage)
        else if !succeeded && !Field(body.fields, CODE).Text? then Refused(MalformedMessage)
        else Ok(Response(envelope.0, succeeded, body.fields))
  }

  // ------------------------------------------------------------------------ the envelope itself

  /** One line: what it says, and then a newline; or nothing, where that would be too long. */
  predicate Line(c: Codec, s: Syntax, fields: Fields, frame: Checked<seq<byte>>) {
    var body := s.dump(Object(fields));
    if |body| < c.limit then frame == Ok(body + [10]) else frame == Refused(MessageTooLarge)
  }

  /** What each kind of message says, key by key. */
  lemma MessagesSay(c: Codec, s: Syntax, id: string, name: string, fields: Fields, code: string)
    ensures name !in c.methods ==> EncodeRequest(c, s, id, name, fields) == Refused(UnsupportedMethod)
    ensures name in c.methods ==>
              Line(c, s, map[c.key := Text(c.version), "request_id" := Text(id), "method" := Text(name),
                             "params" := Object(fields)],
                   EncodeRequest(c, s, id, name, fields))
    ensures Line(c, s, map[c.key := Text(c.version), "request_id" := Text(id), "ok" := Truth(true),
                           "result" := Object(fields)],
                 EncodeOk(c, s, id, fields))
    ensures Line(c, s, map[c.key := Text(c.version), "request_id" := Text(id), "ok" := Truth(false),
                           "error" := Object(fields["code" := Text(code)])],
                 EncodeFailure(c, s, id, code, fields))
  {
  }

  /** An object of this channel's version, with an id, that says nothing but what it may. */
  predicate Enveloped(c: Codec, s: Syntax, raw: seq<byte>, allowed: set<string>, id: string, fields: Fields) {
    && |raw| <= c.limit && s.parse(raw) == Some(Object(fields))
    && (forall key :: key in fields ==> key in allowed || key == c.key || key == "request_id")
    && c.key in fields && fields[c.key] == Text(c.version)
    && "request_id" in fields && fields["request_id"] == Text(id) && id != ""
  }

  /** What a parameter object may be left out as, or given as. */
  predicate GivenAs(fields: Fields, params: Fields) {
    if "params" !in fields then params == map[]
    else
      match fields["params"]
      case Object(given) => params == given
      case Null => params == map[]
      case Truth(truth) => !truth && params == map[]
      case Number(number) => number == 0 && params == map[]
      case Text(text) => text == "" && params == map[]
      case List(items) => items == [] && params == map[]
  }

  /** Exactly which bytes are a request, and which one: whoever sent them, whatever they are. */
  lemma RequestIff(c: Codec, s: Syntax, raw: seq<byte>, r: Request)
    requires WellFormed(c)
    ensures DecodeRequest(c, s, raw) == Ok(r)
            <==> exists fields :: && Enveloped(c, s, raw, {"method", "params"}, r.id, fields)
                                  && "method" in fields && fields["method"] == Text(r.name) && r.name in c.methods
                                  && GivenAs(fields, r.params) && ParamsAllowed(c, r.name, r.params)
  {
    EnvelopeIff(c, s, raw, {"method", "params"});
    hide Envelope;
  }

  lemma EnvelopeIff(c: Codec, s: Syntax, raw: seq<byte>, allowed: set<string>)
    ensures forall id, fields :: Envelope(c, s, raw, allowed) == Ok((id, fields))
                                 <==> Enveloped(c, s, raw, allowed, id, fields)
  {
  }

  /** And exactly which are a response. */
  lemma ResponseIff(c: Codec, s: Syntax, raw: seq<byte>, r: Response)
    ensures DecodeResponse(c, s, raw) == Ok(r)
            <==> exists fields :: && Enveloped(c, s, raw, {"ok", "result", "error"}, r.id, fields)
                                  && "ok" in fields && fields["ok"] == Truth(r.ok)
                                  && (if r.ok then "result" in fields && fields["result"] == Object(r.body)
                                                   && "error" !in fields
                                      else "error" in fields && fields["error"] == Object(r.body)
                                           && "result" !in fields && "code" in r.body && r.body["code"].Text?)
  {
    EnvelopeIff(c, s, raw, {"ok", "result", "error"});
    hide Envelope;
  }

  /** Why anything else is refused: too long before it is read, then no object, a key nobody knows, a
      version nobody speaks, no id. */
  lemma RefusedFor(c: Codec, s: Syntax, raw: seq<byte>, allowed: set<string>)
    ensures Envelope(c, s, raw, allowed) == Refused(MessageTooLarge) <==> |raw| > c.limit
    ensures Envelope(c, s, raw, allowed) == Refused(UnknownField)
            <==> |raw| <= c.limit && s.parse(raw).Some? && s.parse(raw).value.Object?
                 && exists key :: key in s.parse(raw).value.fields && key !in allowed && key !in {c.key, "request_id"}
    ensures Envelope(c, s, raw, allowed) == Refused(VersionUnsupported)
            <==> |raw| <= c.limit && s.parse(raw).Some? && s.parse(raw).value.Object?
                 && (forall key :: key in s.parse(raw).value.fields ==> key in allowed || key in {c.key, "request_id"})
                 && (c.key in s.parse(raw).value.fields ==> s.parse(raw).value.fields[c.key] != Text(c.version))
    ensures Envelope(c, s, raw, allowed).Refused? ==>
              Envelope(c, s, raw, allowed).code in {MessageTooLarge, MalformedMessage, UnknownField, VersionUnsupported}
  {
  }

  // ------------------------------------------------------------------- the envelope's promises

  predicate ParamsAllowed(c: Codec, name: string, params: Fields) {
    c.params.Some? ==> name in c.params.value && params.Keys <= c.params.value[name]
  }

  /** A request that could be encoded is decoded as itself, unless its id is empty or it uses a
      parameter the channel does not have; then it is refused for exactly that. */
  lemma RequestRoundTrip(c: Codec, s: Syntax, id: string, name: string, params: Fields)
    requires WellFormed(c) && Faithful(s)
    requires EncodeRequest(c, s, id, name, params).Ok?
    ensures var frame := EncodeRequest(c, s, id, name, params).value;
            && |frame| > 0 && frame[|frame| - 1] == NEWLINE && NEWLINE !in frame[..|frame| - 1]
            && DecodeRequest(c, s, frame[..|frame| - 1])
               == (if id == "" then Refused(MalformedMessage)
                   else if !ParamsAllowed(c, name, params) then Refused(UnknownField)
                   else Ok(Request(id, name, params)))
  {
    var payload: Fields :=
      map[c.key := Text(c.version), ID := Text(id), METHOD := Text(name), PARAMS := Object(params)];
    var frame := EncodeRequest(c, s, id, name, params).value;
    assert frame[..|frame| - 1] == s.dump(Object(payload));
    assert s.parse(s.dump(Object(payload))) == Some(Object(payload));
    assert payload.Keys <= {METHOD, PARAMS} + {c.key, ID};
  }

  lemma OkRoundTrip(c: Codec, s: Syntax, id: string, result: Fields)
    requires WellFormed(c) && Faithful(s) && id != "" && EncodeOk(c, s, id, result).Ok?
    ensures var frame := EncodeOk(c, s, id, result).value;
            && |frame| > 0 && NEWLINE !in frame[..|frame| - 1]
            && DecodeResponse(c, s, frame[..|frame| - 1]) == Ok(Response(id, true, result))
  {
    var payload: Fields := map[c.key := Text(c.version), ID := Text(id), OK := Truth(true), RESULT := Object(result)];
    var frame := EncodeOk(c, s, id, result).value;
    assert frame[..|frame| - 1] == s.dump(Object(payload));
    assert s.parse(s.dump(Object(payload))) == Some(Object(payload));
    assert payload.Keys <= {OK, RESULT, ERROR} + {c.key, ID};
  }

  lemma FailureRoundTrip(c: Codec, s: Syntax, id: string, code: string, rest: Fields)
    requires WellFormed(c) && Faithful(s) && id != "" && EncodeFailure(c, s, id, code, rest).Ok?
    ensures var frame := EncodeFailure(c, s, id, code, rest).value;
            && |frame| > 0 && NEWLINE !in frame[..|frame| - 1]
            && DecodeResponse(c, s, frame[..|frame| - 1]) == Ok(Response(id, false, rest[CODE := Text(code)]))
  {
    var payload: Fields := map[c.key := Text(c.version), ID := Text(id), OK := Truth(false),
                               ERROR := Object(rest[CODE := Text(code)])];
    var frame := EncodeFailure(c, s, id, code, rest).value;
    assert frame[..|frame| - 1] == s.dump(Object(payload));
    assert s.parse(s.dump(Object(payload))) == Some(Object(payload));
    assert payload.Keys <= {OK, RESULT, ERROR} + {c.key, ID};
  }

  /** No frame decodes as a success and carries an error, or claims one outcome and carries the
      other, whoever sent it. */
  lemma ResponsesAreExclusive(c: Codec, s: Syntax, raw: seq<byte>)
    requires DecodeResponse(c, s, raw).Ok?
    ensures var r := DecodeResponse(c, s, raw).value;
            s.parse(raw).Some? && s.parse(raw).value.Object?
            && var fields := s.parse(raw).value.fields;
               && (r.ok <==> RESULT in fields)
               && (r.ok <==> ERROR !in fields)
               && Field(fields, OK) == Truth(r.ok)
               && Field(fields, if r.ok then RESULT else ERROR) == Object(r.body)
  {
  }

  // --------------------------------------------------------------------------------- framing

  /** How much of the stream one line takes, reading no more than `most`. */
  function LineLength(rest: seq<byte>, most: nat): (n: nat)
    ensures n <= |rest| && n <= most
    ensures n < |rest| && n < most ==> n > 0 && rest[n - 1] == NEWLINE
    ensures forall i :: 0 <= i < n - 1 ==> rest[i] != NEWLINE
    decreases |rest|
  {
    if rest == [] || most == 0 then 0
    else if rest[0] == NEWLINE then 1
    else
      var n := LineLength(rest[1..], most - 1);
      assert forall i :: 0 < i < n ==> rest[i] == rest[1..][i - 1];
      n + 1
  }

  datatype Read = Message(body: seq<byte>) | EndOfStream | ReadRefused(code: Code)

  function ReadMessage(limit: nat, rest: seq<byte>): (Read, seq<byte>) {
    var n := LineLength(rest, limit + 1);
    var line := rest[..n];
    (if n == 0 then EndOfStream
     else if n > limit then ReadRefused(MessageTooLarge)
     else if line[n - 1] != NEWLINE then ReadRefused(MalformedMessage)
     else Message(line[..n - 1]),
     rest[n..])
  }

  /** Every message until the stream ends or is refused. */
  function ReadAll(limit: nat, rest: seq<byte>): (seq<seq<byte>>, Read)
    decreases |rest|
  {
    var read := ReadMessage(limit, rest);
    if read.0.Message? then
      var after := ReadAll(limit, read.1);
      ([read.0.body] + after.0, after.1)
    else ([], read.0)
  }

  lemma {:induction false} LineEnds(body: seq<byte>, after: seq<byte>, most: nat)
    requires NEWLINE !in body
    ensures LineLength(body + [NEWLINE] + after, most) == if |body| + 1 <= most then |body| + 1 else most
    decreases |body|
  {
    var all := body + [NEWLINE] + after;
    if body != [] && most > 0 {
      assert all[1..] == body[1..] + [NEWLINE] + after;
      LineEnds(body[1..], after, most - 1);
    }
  }

  /** The two ends agree on the size limit: a body is read back exactly when its frame, newline
      included, is no longer than the limit. */
  lemma LimitsAgree(limit: nat, body: seq<byte>, after: seq<byte>)
    requires NEWLINE !in body
    ensures ReadMessage(limit, body + [NEWLINE] + after)
         == if |body| + 1 <= limit then (Message(body), after)
            else (ReadRefused(MessageTooLarge), (body + [NEWLINE] + after)[limit + 1..])
  {
    var all := body + [NEWLINE] + after;
    LineEnds(body, after, limit + 1);
    if |body| + 1 <= limit {
      assert all[..|body| + 1][..|body|] == body;
      assert all[|body| + 1..] == after;
    }
  }

  lemma ReadOne(limit: nat, rest: seq<byte>)
    ensures var read := ReadMessage(limit, rest);
            ReadAll(limit, rest)
            == if read.0.Message? then ([read.0.body] + ReadAll(limit, read.1).0, ReadAll(limit, read.1).1)
               else ([], read.0)
    ensures ReadMessage(limit, rest).0.Message? ==> |ReadMessage(limit, rest).1| < |rest|
  {
  }

  predicate Frameable(limit: nat, body: seq<byte>) {
    NEWLINE !in body && |body| + 1 <= limit
  }

  function Joined(bodies: seq<seq<byte>>): seq<byte> {
    if bodies == [] then [] else bodies[0] + [NEWLINE] + Joined(bodies[1..])
  }

  /** Framing and reading are inverse: the bodies come back, in order, and then the stream
      ends. */
  lemma {:induction false} FramingRoundTrip(limit: nat, bodies: seq<seq<byte>>)
    requires forall i :: 0 <= i < |bodies| ==> Frameable(limit, bodies[i])
    ensures ReadAll(limit, Joined(bodies)) == (bodies, EndOfStream)
    decreases |bodies|
  {
    if bodies != [] {
      assert Frameable(limit, bodies[0]);
      LimitsAgree(limit, bodies[0], Joined(bodies[1..]));
      FramingRoundTrip(limit, bodies[1..]);
      assert bodies == [bodies[0]] + bodies[1..];
    }
  }

  /** A stream, read from the front. */
  class Stream {
    var rest: seq<byte>

    constructor (bytes: seq<byte>)
      ensures rest == bytes
    {
      rest := bytes;
    }

    method ReadLine(most: nat) returns (line: seq<byte>)
      modifies this
      ensures line == old(rest)[..LineLength(old(rest), most)]
      ensures rest == old(rest)[LineLength(old(rest), most)..]
    {
      var n := 0;
      ghost var all := rest;
      while n < |rest| && n < most && (n == 0 || rest[n - 1] != NEWLINE)
        invariant rest == all
        invariant n <= |rest| && n <= most
        invariant forall i :: 0 <= i < n - 1 ==> rest[i] != NEWLINE
      {
        n := n + 1;
      }
      LineIsUnique(rest, most, n);
      line := rest[..n];
      rest := rest[n..];
    }

    method Next(limit: nat) returns (read: Read)
      modifies this
      ensures (read, rest) == ReadMessage(limit, old(rest))
    {
      var line := ReadLine(limit + 1);
      if |line| == 0 { return EndOfStream; }
      if |line| > limit { return ReadRefused(MessageTooLarge); }
      if line[|line| - 1] != NEWLINE { return ReadRefused(MalformedMessage); }
      read := Message(line[..|line| - 1]);
    }

    /** Serves the connection: every message until it ends or is refused. */
    method Drain(limit: nat) returns (bodies: seq<seq<byte>>, end: Read)
      modifies this
      ensures (bodies, end) == ReadAll(limit, old(rest))
    {
      bodies := [];
      ghost var all := rest;
      while true
        invariant ReadAll(limit, all).0 == bodies + ReadAll(limit, rest).0
        invariant ReadAll(limit, all).1 == ReadAll(limit, rest).1
        decreases |rest|
      {
        ReadOne(limit, rest);
        end := Next(limit);
        hide ReadAll, ReadMessage;
        if !end.Message? {
          assert bodies + [] == bodies;
          return;
        }
        bodies := bodies + [end.body];
      }
    }
  }

  lemma {:induction false} LineIsUnique(rest: seq<byte>, most: nat, n: nat)
    requires n <= |rest| && n <= most
    requires n < |rest| && n < most ==> n > 0 && rest[n - 1] == NEWLINE
    requires forall i :: 0 <= i < n - 1 ==> rest[i] != NEWLINE
    ensures LineLength(rest, most) == n
    decreases |rest|
  {
    if rest != [] && most > 0 && rest[0] != NEWLINE {
      LineIsUnique(rest[1..], most - 1, n - 1);
    }
  }

  // ---------------------------------------------------------------------------------- calling

  /** How the socket may fail. A missing file can only be found out before anything is written. */
  datatype Fault = FileMissing | TimedOut | ConnectionBroken | SocketError

  /** What the socket does with one call: it fails, before or after the request was written, or
      the far side's bytes come back. */
  datatype Exchange = Interrupted(written: bool, fault: Fault) | Incoming(bytes: seq<byte>)

  datatype Called = Got(result: Fields) | Failed(dispatched: bool)

  /** The first message, read and decoded. */
  function FirstResponse(c: Codec, s: Syntax, incoming: seq<byte>): Option<Response> {
    match ReadMessage(c.limit, incoming).0
    case Message(raw) =>
      (match DecodeResponse(c, s, raw)
       case Ok(response) => Some(response)
       case Refused(code) => None)
    case _ => None
  }

  /** What one call comes to. A result is believed only from a response that answers this very
      request; every failure says whether the request had left. */
  predicate ComesTo(c: Codec, s: Syntax, id: string, name: string, params: Fields, exchange: Exchange, called: Called) {
    var encoded := EncodeRequest(c, s, id, name, params).Ok?;
    match called
    case Got(result) =>
      encoded && exchange.Incoming? && FirstResponse(c, s, exchange.bytes) == Some(Response(id, true, result))
    case Failed(dispatched) =>
      && (dispatched <==> encoded && (exchange.Incoming? || (exchange.written && exchange.fault != FileMissing)))
      && (encoded && exchange.Incoming? ==>
            var answer := FirstResponse(c, s, exchange.bytes);
            answer.None? || answer.value.id != id || !answer.value.ok)
  }

  method Call(c: Codec, s: Syntax, id: string, name: string, params: Fields, exchange: Exchange)
    returns (called: Called)
    ensures ComesTo(c, s, id, name, params, exchange, called)
  {
    if EncodeRequest(c, s, id, name, params).Refused? { return Failed(false); }
    var dispatched := false;
    match exchange {
      case Interrupted(written, fault) =>
        dispatched := written;
        return Failed(if fault == FileMissing then false else dispatched);
      case Incoming(bytes) =>
        dispatched := true;
        var stream := new Stream(bytes);
        var read := stream.Next(c.limit);
        if !read.Message? { return Failed(dispatched); }
        var decoded := DecodeResponse(c, s, read.body);
        if decoded.Refused? { return Failed(dispatched); }
        if decoded.value.id != id || !decoded.value.ok { return Failed(dispatched); }
        return Got(decoded.value.body);
    }
  }

  // ---------------------------------------------------------------------------------- serving

  /** What a handler makes of a request it accepted: a result, or a refusal with its code and
      what else it says about it. */
  datatype Handled = Done(result: Fields) | Declined(code: string, said: Fields)

  function CodeName(code: Code): string {
    match code
    case MalformedMessage => "malformed_message"
    case UnknownField => "unknown_field"
    case UnsupportedMethod => "unsupported_method"
    case InvalidParams => "invalid_params"
    case MessageTooLarge => "message_too_large"
    case VersionUnsupported => "protocol_version_unsupported"
  }

  /** The answer to one message, `said` being what a refusal of the channel's own adds to its
      code. A request that cannot be read is refused without an id, and a result too large to
      send is refused with one. */
  function Respond(c: Codec, s: Syntax, raw: seq<byte>, handled: Handled, said: Fields): Checked<seq<byte>>
    requires WellFormed(c)
  {
    match DecodeRequest(c, s, raw)
    case Refused(code) => EncodeFailure(c, s, UNCORRELATED, CodeName(code), said)
    case Ok(request) =>
      match handled
      case Declined(code, why) => EncodeFailure(c, s, request.id, code, why)
      case Done(result) =>
        var frame := EncodeOk(c, s, request.id, result);
        if frame.Ok? then frame else EncodeFailure(c, s, request.id, CodeName(frame.code), said)
  }

  /** Bytes that are no request are answered without an id, by what is wrong with them. */
  lemma RefusedIsAnswered(c: Codec, s: Syntax, raw: seq<byte>, handled: Handled, said: Fields, code: Code)
    requires WellFormed(c) && DecodeRequest(c, s, raw) == Refused(code)
    ensures var name := match code
                        case MalformedMessage => "malformed_message"
                        case UnknownField => "unknown_field"
                        case UnsupportedMethod => "unsupported_method"
                        case InvalidParams => "invalid_params"
                        case MessageTooLarge => "message_too_large"
                        case VersionUnsupported => "protocol_version_unsupported";
            Line(c, s, map[c.key := Text(c.version), "request_id" := Text("uncorrelated"), "ok" := Truth(false),
                           "error" := Object(said["code" := Text(name)])],
                 Respond(c, s, raw, handled, said))
  {
    hide DecodeRequest;
  }

  /** And a result there is no room for is answered with the request's id, saying so. */
  lemma TooLargeIsAnswered(c: Codec, s: Syntax, raw: seq<byte>, request: Request, result: Fields, said: Fields)
    requires WellFormed(c) && DecodeRequest(c, s, raw) == Ok(request) && EncodeOk(c, s, request.id, result).Refused?
    ensures Line(c, s, map[c.key := Text(c.version), "request_id" := Text(request.id), "ok" := Truth(false),
                           "error" := Object(said["code" := Text("message_too_large")])],
                 Respond(c, s, raw, Done(result), said))
  {
    hide DecodeRequest;
  }

  /** The bytes that go out: none for an answer that could not be encoded either. */
  function Sent(frame: Checked<seq<byte>>): seq<byte> {
    if frame.Ok? then frame.value else []
  }

  lemma FrameReadsBack(c: Codec, s: Syntax, payload: Fields)
    requires Faithful(s) && Frame(c, s, payload).Ok?
    ensures ReadMessage(c.limit, Frame(c, s, payload).value) == (Message(s.dump(Object(payload))), [])
  {
    var body := s.dump(Object(payload));
    assert s.parse(body) == Some(Object(payload));
    LimitsAgree(c.limit, body, []);
    assert body + [NEWLINE] + [] == body + [NEWLINE];
  }

  /** What the server's answer says: the handler's own word, where there is room for it; and where the
      request was refused, or there is not, which of the two it was. */
  function AnswerTo(c: Codec, s: Syntax, id: string, name: string, params: Fields, handled: Handled, said: Fields)
    : Response
  {
    if !ParamsAllowed(c, name, params) then Response("uncorrelated", false, said["code" := Text("unknown_field")])
    else
      match handled
      case Declined(code, why) => Response(id, false, why["code" := Text(code)])
      case Done(result) =>
        if EncodeOk(c, s, id, result).Ok? then Response(id, true, result)
        else Response(id, false, said["code" := Text("message_too_large")])
  }

  /** Both halves together. Whatever part of the server's answer arrives, a success read from it
      that answers this request is exactly the result the handler came to; and an answer that
      arrives whole is read as just what the server had to say. */
  lemma CallsAreAnsweredByTheHandler(c: Codec, s: Syntax, id: string, name: string, params: Fields,
                                     handled: Handled, said: Fields, arrived: seq<byte>)
    requires WellFormed(c) && Faithful(s) && id != "" && id != UNCORRELATED
    requires EncodeRequest(c, s, id, name, params).Ok?
    requires arrived <= Sent(Respond(c, s, s.dump(RequestPayload(c, id, name, params)), handled, said))
    ensures var answer := FirstResponse(c, s, arrived);
            && (answer.Some? && answer.value.id == id && answer.value.ok ==> handled == Done(answer.value.body))
            && (arrived == Sent(Respond(c, s, s.dump(RequestPayload(c, id, name, params)), handled, said)) != [] ==>
                  answer == Some(AnswerTo(c, s, id, name, params, handled, said)))
  {
    var raw := s.dump(RequestPayload(c, id, name, params));
    RequestRoundTrip(c, s, id, name, params);
    var frame := EncodeRequest(c, s, id, name, params).value;
    assert frame[..|frame| - 1] == raw;
    var decoded := DecodeRequest(c, s, raw);
    hide DecodeRequest, FirstResponse;
    if decoded.Refused? {
      FailureIsReadBack(c, s, UNCORRELATED, CodeName(decoded.code), said, arrived);
    } else {
      match handled {
        case Declined(code, why) => FailureIsReadBack(c, s, id, code, why, arrived);
        case Done(result) =>
          if EncodeOk(c, s, id, result).Ok? { OkIsReadBack(c, s, id, result, arrived); }
          else { FailureIsReadBack(c, s, id, CodeName(EncodeOk(c, s, id, result).code), said, arrived); }
      }
    }
  }

  function RequestPayload(c: Codec, id: string, name: string, params: Fields): Json {
    Object(map[c.key := Text(c.version), ID := Text(id), METHOD := Text(name), PARAMS := Object(params)])
  }

  /** A frame cut short is no message. */
  lemma CutFrameIsNoMessage(limit: nat, body: seq<byte>, arrived: seq<byte>)
    requires NEWLINE !in body && arrived <= body + [NEWLINE] && arrived != body + [NEWLINE]
    ensures !ReadMessage(limit, arrived).0.Message?
  {
    var n := LineLength(arrived, limit + 1);
    assert arrived == body[..|arrived|];
    if n > 0 { assert arrived[n - 1] == body[n - 1]; }
  }

  /** What is read from as much of a frame as arrived: its payload's response, or nothing. */
  lemma FrameIsReadBack(c: Codec, s: Syntax, payload: Fields, arrived: seq<byte>)
    requires Faithful(s) && arrived <= Sent(Frame(c, s, payload))
    ensures FirstResponse(c, s, arrived)
         == if arrived != [] && arrived == Sent(Frame(c, s, payload))
               && DecodeResponse(c, s, s.dump(Object(payload))).Ok?
            then Some(DecodeResponse(c, s, s.dump(Object(payload))).value) else None
  {
    var body := s.dump(Object(payload));
    assert s.parse(body) == Some(Object(payload));
    hide DecodeResponse;
    if Frame(c, s, payload).Ok? {
      if arrived == body + [NEWLINE] { FrameReadsBack(c, s, payload); }
      else { CutFrameIsNoMessage(c.limit, body, arrived); }
    }
  }

  lemma OkIsReadBack(c: Codec, s: Syntax, id: string, result: Fields, arrived: seq<byte>)
    requires WellFormed(c) && Faithful(s) && id != "" && arrived <= Sent(EncodeOk(c, s, id, result))
    ensures FirstResponse(c, s, arrived)
         == if arrived != [] && arrived == Sent(EncodeOk(c, s, id, result))
            then Some(Response(id, true, result)) else None
  {
    var payload: Fields := map[c.key := Text(c.version), ID := Text(id), OK := Truth(true), RESULT := Object(result)];
    FrameIsReadBack(c, s, payload, arrived);
    if EncodeOk(c, s, id, result).Ok? {
      OkRoundTrip(c, s, id, result);
      var frame := EncodeOk(c, s, id, result).value;
      assert frame[..|frame| - 1] == s.dump(Object(payload));
    }
  }

  lemma FailureIsReadBack(c: Codec, s: Syntax, id: string, code: string, said: Fields, arrived: seq<byte>)
    requires WellFormed(c) && Faithful(s) && id != "" && arrived <= Sent(EncodeFailure(c, s, id, code, said))
    ensures FirstResponse(c, s, arrived)
         == if arrived != [] && arrived == Sent(EncodeFailure(c, s, id, code, said))
            then Some(Response(id, false, said[CODE := Text(code)])) else None
  {
    var payload: Fields := map[c.key := Text(c.version), ID := Text(id), OK := Truth(false),
                               ERROR := Object(said[CODE := Text(code)])];
    FrameIsReadBack(c, s, payload, arrived);
    if EncodeFailure(c, s, id, code, said).Ok? {
      FailureRoundTrip(c, s, id, code, said);
      var frame := EncodeFailure(c, s, id, code, said).value;
      assert frame[..|frame| - 1] == s.dump(Object(payload));
    }
  }
}
