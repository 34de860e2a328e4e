/** The bytes that cross to the kernel and back: the two requests this program can build, and
    the parsers that read a reply, total over every byte string.

    Sections 2.3.2 and 2.3.2.2 of RFC 3549 give the message header and the acknowledgement.
    Integers are little-endian. */
module Netlink {
  import opened Bytes
  import opened Outcomes

  const NLM_F_REQUEST := 1
  const NLM_F_ACK := 4
  const NLMSG_ERROR := 2
  const NLMSG_DONE := 3
  const RTM_NEWLINK := 16
  const RTM_GETLINK := 18
  const IFLA_IFNAME := 3
  const IFLA_MTU := 4
  const ENODEV := 19

  const HEADER := 16
  const IFINFO := 16
  const RTATTR := 4

  const MIN_MTU := 68
  const MAX_MTU := 65536

  const U16_LIMIT := 0x1_0000
  const U32_LIMIT := 0x1_0000_0000

  // -------------------------------------------------------------------------------- integers

  function U16(n: int): (b: seq<byte>)
    requires 0 <= n < U16_LIMIT
    ensures |b| == 2
  {
    [n % 256, n / 256]
  }

  function U32(n: int): (b: seq<byte>)
    requires 0 <= n < U32_LIMIT
    ensures |b| == 4
  {
    var second, third: int := n / 256, n / 65536;
    [n % 256, second % 256, third % 256, n / 16777216]
  }

  function Read16(b: seq<byte>, at: nat): (n: int)
    requires at + 2 <= |b|
    ensures 0 <= n < U16_LIMIT
  {
    b[at] as int + 256 * (b[at + 1] as int)
  }

  function Read32(b: seq<byte>, at: nat): (n: int)
    requires at + 4 <= |b|
    ensures 0 <= n < U32_LIMIT
  {
    b[at] as int + 256 * (b[at + 1] as int) + 65536 * (b[at + 2] as int) + 16777216 * (b[at + 3] as int)
  }

  /** The signed reading of the same four bytes. */
  function ReadI32(b: seq<byte>, at: nat): (n: int)
    requires at + 4 <= |b|
    ensures -0x8000_0000 <= n < 0x8000_0000
  {
    var n := Read32(b, at);
    if n < 0x8000_0000 then n else n - U32_LIMIT
  }

  lemma U16RoundTrip(n: int, before: seq<byte>, after: seq<byte>)
    requires 0 <= n < U16_LIMIT
    ensures Read16(before + U16(n) + after, |before|) == n
  {
  }

  lemma U32Digits(n: int)
    requires 0 <= n < U32_LIMIT
    ensures n % 256 + 256 * (n / 256 % 256) + 65536 * (n / 65536 % 256) + 16777216 * (n / 16777216) == n
  {
  }

  lemma U32RoundTrip(n: int, before: seq<byte>, after: seq<byte>)
    requires 0 <= n < U32_LIMIT
    ensures Read32(before + U32(n) + after, |before|) == n
  {
    var b, at := before + U32(n) + after, |before|;
    assert b[at] == U32(n)[0] && b[at + 1] == U32(n)[1] && b[at + 2] == U32(n)[2] && b[at + 3] == U32(n)[3];
    U32Digits(n);
  }

  /** The next multiple of four. */
  function Aligned(n: nat): (a: nat)
    ensures n <= a < n + 4 && a % 4 == 0
  {
    (n + 3) / 4 * 4
  }

  function Zeros(n: nat): (z: seq<byte>)
    ensures |z| == n
  {
    seq(n, i => 0)
  }

  function Padded(raw: seq<byte>): (b: seq<byte>)
    ensures |b| == Aligned(|raw|)
  {
    raw + Zeros(Aligned(|raw|) - |raw|)
  }

  // ------------------------------------------------------------------------------- the frames

  predicate FitsFrame(kind: int, flags: int, sequence: int, body: seq<byte>) {
    && 0 <= kind < U16_LIMIT
    && 0 <= flags < U16_LIMIT
    && 0 <= sequence < U32_LIMIT
    && HEADER + |body| < U32_LIMIT
  }

  function Frame(kind: int, flags: int, sequence: int, body: seq<byte>): (f: seq<byte>)
    requires FitsFrame(kind, flags, sequence, body)
    ensures |f| == HEADER + |body|
  {
    U32(HEADER + |body|) + U16(kind) + U16(flags) + U32(sequence) + U32(0) + body
  }

  predicate FitsAttribute(kind: int, payload: seq<byte>) {
    0 <= kind < U16_LIMIT && RTATTR + |payload| < U16_LIMIT
  }

  function Attribute(kind: int, payload: seq<byte>): (a: seq<byte>)
    requires FitsAttribute(kind, payload)
  {
    Padded(U16(RTATTR + |payload|) + U16(kind) + payload)
  }

  function LinkBody(ifindex: int): (b: seq<byte>)
    requires 0 <= ifindex < 0x8000_0000
    ensures |b| == IFINFO
  {
    [0, 0] + U16(0) + U32(ifindex) + U32(0) + U32(0)
  }

  function GetLinkRequest(ifindex: int, sequence: int): seq<byte>
    requires 0 <= ifindex < 0x8000_0000 && 0 <= sequence < U32_LIMIT
  {
    Frame(RTM_GETLINK, NLM_F_REQUEST, sequence, LinkBody(ifindex))
  }

  /** The one mutating message this program can send. */
  function SetMtuRequest(ifindex: int, mtu: int, sequence: int): seq<byte>
    requires 0 <= ifindex < 0x8000_0000 && 0 <= mtu < U32_LIMIT && 0 <= sequence < U32_LIMIT
  {
    Frame(RTM_NEWLINK, NLM_F_REQUEST + NLM_F_ACK, sequence, LinkBody(ifindex) + Attribute(IFLA_MTU, U32(mtu)))
  }

  /** The query, byte for byte: 32 bytes of type 18 with flag 1, the sequence and the index low byte
      first, and zero everywhere else. */
  function GetLinkBytes(ifindex: int, sequence: int): seq<byte>
    requires 0 <= ifindex < 0x8000_0000 && 0 <= sequence < 0x1_0000_0000
  {
    [32, 0, 0, 0, 18, 0, 1, 0,
     sequence % 256, sequence / 256 % 256, sequence / 65536 % 256, sequence / 16777216, 0, 0, 0, 0,
     0, 0, 0, 0, ifindex % 256, ifindex / 256 % 256, ifindex / 65536 % 256, ifindex / 16777216,
     0, 0, 0, 0, 0, 0, 0, 0]
  }

  /** The mutation: 40 bytes of type 16 with flags 1 and 4, and one attribute of type 4 that holds
      the MTU. The interface's flags and the mask of the flags to change are zero, so nothing but
      the MTU is asked for. */
  function SetMtuBytes(ifindex: int, mtu: int, sequence: int): seq<byte>
    requires 0 <= ifindex < 0x8000_0000 && 0 <= mtu < 0x1_0000_0000 && 0 <= sequence < 0x1_0000_0000
  {
    [40, 0, 0, 0, 16, 0, 5, 0,
     sequence % 256, sequence / 256 % 256, sequence / 65536 % 256, sequence / 16777216, 0, 0, 0, 0,
     0, 0, 0, 0, ifindex % 256, ifindex / 256 % 256, ifindex / 65536 % 256, ifindex / 16777216,
     0, 0, 0, 0, 0, 0, 0, 0,
     8, 0, 4, 0, mtu % 256, mtu / 256 % 256, mtu / 65536 % 256, mtu / 16777216]
  }

  lemma LinkBodyBytes(ifindex: int)
    requires 0 <= ifindex < 0x8000_0000
    ensures LinkBody(ifindex)
         == [0, 0, 0, 0, ifindex % 256, ifindex / 256 % 256, ifindex / 65536 % 256, ifindex / 16777216,
             0, 0, 0, 0, 0, 0, 0, 0]
  {
  }

  lemma FrameBytes(kind: int, flags: int, sequence: int, body: seq<byte>)
    requires 0 <= kind < 256 && 0 <= flags < 256 && 0 <= sequence < U32_LIMIT && |body| < 240
    ensures Frame(kind, flags, sequence, body)
         == [16 + |body|, 0, 0, 0, kind, 0, flags, 0,
             sequence % 256, sequence / 256 % 256, sequence / 65536 % 256, sequence / 16777216, 0, 0, 0, 0] + body
  {
  }

  lemma MtuAttributeBytes(mtu: int)
    requires 0 <= mtu < U32_LIMIT
    ensures Attribute(IFLA_MTU, U32(mtu))
         == [8, 0, 4, 0, mtu % 256, mtu / 256 % 256, mtu / 65536 % 256, mtu / 16777216]
  {
    AlignedIsUnpadded(U16(8) + U16(4) + U32(mtu));
    hide Padded;
  }

  lemma GetLinkIsTheseBytes(ifindex: int, sequence: int)
    requires 0 <= ifindex < 0x8000_0000 && 0 <= sequence < U32_LIMIT
    ensures GetLinkRequest(ifindex, sequence) == GetLinkBytes(ifindex, sequence)
  {
    LinkBodyBytes(ifindex);
    FrameBytes(RTM_GETLINK, NLM_F_REQUEST, sequence, LinkBody(ifindex));
    hide Frame, LinkBody;
  }

  lemma SetMtuIsTheseBytes(ifindex: int, mtu: int, sequence: int)
    requires 0 <= ifindex < 0x8000_0000 && 0 <= mtu < U32_LIMIT && 0 <= sequence < U32_LIMIT
    ensures SetMtuRequest(ifindex, mtu, sequence) == SetMtuBytes(ifindex, mtu, sequence)
  {
    LinkBodyBytes(ifindex);
    MtuAttributeBytes(mtu);
    FrameBytes(RTM_NEWLINK, NLM_F_REQUEST + NLM_F_ACK, sequence, LinkBody(ifindex) + Attribute(IFLA_MTU, U32(mtu)));
    hide Frame, LinkBody, Attribute;
  }

  // ----------------------------------------------------------------------------- the splitter

  datatype Message = Message(kind: int, sequence: int, body: seq<byte>)

  /** The messages read before the end, a DONE, or a malformed header; `malformed` tells the
      last from the others. */
  datatype Reply = Reply(messages: seq<Message>, malformed: bool)

  predicate HeaderAt(reply: seq<byte>, at: nat) {
    at + HEADER <= |reply|
  }

  predicate Malformed(reply: seq<byte>, at: nat)
    requires HeaderAt(reply, at)
  {
    Read32(reply, at) < HEADER || at + Read32(reply, at) > |reply|
  }

  function MessageAt(reply: seq<byte>, at: nat): Message
    requires HeaderAt(reply, at) && !Malformed(reply, at)
  {
    Message(Read16(reply, at + 4), Read32(reply, at + 8), reply[at + HEADER..at + Read32(reply, at)])
  }

  function Messages(reply: seq<byte>, at: nat): (r: Reply)
    decreases |reply| - at
  {
    if !HeaderAt(reply, at) then Reply([], false)
    else if Malformed(reply, at) then Reply([], true)
    else if Read16(reply, at + 4) == NLMSG_DONE then Reply([], false)
    else
      var rest := Messages(reply, at + Aligned(Read32(reply, at)));
      Reply([MessageAt(reply, at)] + rest.messages, rest.malformed)
  }

  /** The splitter, as it runs: it comes to an end on every byte string. */
  method SplitMessages(reply: seq<byte>) returns (r: Reply)
    ensures r == Messages(reply, 0)
  {
    hide Read16, Read32, MessageAt, Aligned, Messages;
    var at: nat := 0;
    var found: seq<Message> := [];
    while HeaderAt(reply, at)
      invariant Messages(reply, 0).messages == found + Messages(reply, at).messages
      invariant Messages(reply, 0).malformed == Messages(reply, at).malformed
      decreases |reply| - at
    {
      MessagesUnfold(reply, at);
      if Malformed(reply, at) { return Reply(found, true); }
      if Read16(reply, at + 4) == NLMSG_DONE { return Reply(found, false); }
      found := found + [MessageAt(reply, at)];
      at := at + Aligned(Read32(reply, at));
    }
    MessagesUnfold(reply, at);
    r := Reply(found, false);
  }

  lemma MessagesUnfold(reply: seq<byte>, at: nat)
    ensures Messages(reply, at)
         == if !HeaderAt(reply, at) then Reply([], false)
            else if Malformed(reply, at) then Reply([], true)
            else if Read16(reply, at + 4) == NLMSG_DONE then Reply([], false)
            else
              var rest := Messages(reply, at + Aligned(Read32(reply, at)));
              Reply([MessageAt(reply, at)] + rest.messages, rest.malformed)
  {
  }

  datatype FrameSpec = FrameSpec(kind: int, flags: int, sequence: int, body: seq<byte>)

  predicate Fits(f: FrameSpec) {
    FitsFrame(f.kind, f.flags, f.sequence, f.body) && f.kind != NLMSG_DONE
  }

  /** The bytes at `at` read as this frame's header and body. */
  predicate FrameReads(b: seq<byte>, at: nat, f: FrameSpec) {
    && at + HEADER + |f.body| <= |b|
    && Read32(b, at) == HEADER + |f.body|
    && Read16(b, at + 4) == f.kind
    && Read32(b, at + 8) == f.sequence
    && b[at + HEADER..at + HEADER + |f.body|] == f.body
  }

  lemma FrameIsRead(before: seq<byte>, f: FrameSpec, after: seq<byte>)
    requires Fits(f)
    ensures FrameReads(before + Frame(f.kind, f.flags, f.sequence, f.body) + after, |before|, f)
  {
    hide U16, U32, Read16, Read32;
    var b, at := before + Frame(f.kind, f.flags, f.sequence, f.body) + after, |before|;
    U32RoundTrip(HEADER + |f.body|, before, b[at + 4..]);
    assert b == before + U32(HEADER + |f.body|) + b[at + 4..];
    U16RoundTrip(f.kind, b[..at + 4], b[at + 6..]);
    assert b == b[..at + 4] + U16(f.kind) + b[at + 6..];
    U32RoundTrip(f.sequence, b[..at + 8], b[at + 12..]);
    assert b == b[..at + 8] + U32(f.sequence) + b[at + 12..];
  }

  predicate AllFit(frames: seq<FrameSpec>) {
    forall i :: 0 <= i < |frames| ==> Fits(frames[i])
  }

  /** Frames one after another, each padded to the next multiple of four. */
  function Datagram(frames: seq<FrameSpec>): seq<byte>
    requires AllFit(frames)
  {
    if frames == [] then []
    else
      Padded(Frame(frames[0].kind, frames[0].flags, frames[0].sequence, frames[0].body)) + Datagram(frames[1..])
  }

  function MessagesOf(frames: seq<FrameSpec>): seq<Message> {
    seq(|frames|, i requires 0 <= i < |frames| => Message(frames[i].kind, frames[i].sequence, frames[i].body))
  }

  lemma PaddingIsAfter(before: seq<byte>, raw: seq<byte>, after: seq<byte>)
    ensures before + Padded(raw) + after == before + raw + (Zeros(Aligned(|raw|) - |raw|) + after)
  {
  }

  /** A header that reads as this frame's is split as it. */
  lemma SplitStep(b: seq<byte>, at: nat, f: FrameSpec, next: nat)
    requires Fits(f) && next == at + Aligned(HEADER + |f.body|) && FrameReads(b, at, f)
    ensures Messages(b, at)
         == Reply([Message(f.kind, f.sequence, f.body)] + Messages(b, next).messages, Messages(b, next).malformed)
  {
    hide Read16, Read32, Aligned;
  }

  lemma PaddedFrameIsRead(before: seq<byte>, f: FrameSpec, after: seq<byte>)
    requires Fits(f)
    ensures FrameReads(before + Padded(Frame(f.kind, f.flags, f.sequence, f.body)) + after, |before|, f)
  {
    var raw := Frame(f.kind, f.flags, f.sequence, f.body);
    FrameIsRead(before, f, Zeros(Aligned(|raw|) - |raw|) + after);
    PaddingIsAfter(before, raw, after);
    hide FrameReads, Frame, Padded;
  }

  lemma {:induction false} SplitAfter(before: seq<byte>, frames: seq<FrameSpec>)
    requires AllFit(frames)
    ensures Messages(before + Datagram(frames), |before|) == Reply(MessagesOf(frames), false)
    decreases |frames|
  {
    hide Messages, Padded, Frame, FrameReads, Aligned;
    if frames == [] {
      assert before + Datagram(frames) == before;
      SplitNothing(before);
    } else {
      var f, rest := frames[0], frames[1..];
      var head := before + Padded(Frame(f.kind, f.flags, f.sequence, f.body));
      var b := before + Datagram(frames);
      assert b == head + Datagram(rest);
      PaddedFrameIsRead(before, f, Datagram(rest));
      SplitStep(b, |before|, f, |head|);
      SplitAfter(head, rest);
      assert MessagesOf(frames) == [Message(f.kind, f.sequence, f.body)] + MessagesOf(rest);
    }
  }

  lemma SplitNothing(before: seq<byte>)
    ensures Messages(before, |before|) == Reply([], false)
  {
  }

  /** Splitting undoes framing, for any list of messages. */
  lemma SplitInvertsFraming(frames: seq<FrameSpec>)
    requires AllFit(frames)
    ensures Messages(Datagram(frames), 0) == Reply(MessagesOf(frames), false)
  {
    assert [] + Datagram(frames) == Datagram(frames);
    SplitAfter([], frames);
  }

  lemma SplitAlone(f: FrameSpec)
    requires Fits(f) && |f.body| % 4 == 0
    ensures Messages(Frame(f.kind, f.flags, f.sequence, f.body), 0)
         == Reply([Message(f.kind, f.sequence, f.body)], false)
  {
    var frame := Frame(f.kind, f.flags, f.sequence, f.body);
    AloneIsDatagram(f);
    SplitInvertsFraming([f]);
    hide Frame, Messages, Datagram, Fits;
    assert MessagesOf([f]) == [Message(f.kind, f.sequence, f.body)];
  }

  lemma AloneIsDatagram(f: FrameSpec)
    requires Fits(f) && |f.body| % 4 == 0
    ensures Datagram([f]) == Frame(f.kind, f.flags, f.sequence, f.body)
  {
    var frame := Frame(f.kind, f.flags, f.sequence, f.body);
    AlignedIsUnpadded(frame);
    hide Frame, Padded;
    assert [f][1..] == [];
    assert Datagram([f]) == frame + [];
  }

  lemma AlignedIsUnpadded(raw: seq<byte>)
    requires |raw| % 4 == 0
    ensures Padded(raw) == raw
  {
    assert Aligned(|raw|) == |raw|;
    assert Zeros(0) == [];
  }

  // ------------------------------------------------------------------------- the attributes

  predicate AttributeAt(body: seq<byte>, at: nat) {
    && at + RTATTR <= |body|
    && RTATTR <= Read16(body, at) <= |body| - at
  }

  function Attributes(body: seq<byte>, at: nat, found: map<int, seq<byte>>): map<int, seq<byte>>
    decreases |body| - at
  {
    if !AttributeAt(body, at) then found
    else
      Attributes(body, at + Aligned(Read16(body, at)),
                 found[Read16(body, at + 2) := body[at + RTATTR..at + Read16(body, at)]])
  }

  method ReadAttributes(body: seq<byte>, offset: nat) returns (found: map<int, seq<byte>>)
    ensures found == Attributes(body, offset, map[])
  {
    var at := offset;
    found := map[];
    while at + RTATTR <= |body|
      invariant Attributes(body, offset, map[]) == Attributes(body, at, found)
      decreases |body| - at
    {
      var length := Read16(body, at);
      if length < RTATTR || at + length > |body| { break; }
      found := found[Read16(body, at + 2) := body[at + RTATTR..at + length]];
      at := at + Aligned(length);
    }
  }

  datatype Block = Block(kind: int, payload: seq<byte>)

  predicate AllFitBlocks(blocks: seq<Block>) {
    forall i :: 0 <= i < |blocks| ==> FitsAttribute(blocks[i].kind, blocks[i].payload)
  }

  function Blocks(blocks: seq<Block>): seq<byte>
    requires AllFitBlocks(blocks)
  {
    if blocks == [] then [] else Attribute(blocks[0].kind, blocks[0].payload) + Blocks(blocks[1..])
  }

  /** The payload a kind ends up with: the last one given for it. */
  function LastOf(blocks: seq<Block>, kind: int): Option<seq<byte>> {
    if blocks == [] then None
    else if blocks[|blocks| - 1].kind == kind then Some(blocks[|blocks| - 1].payload)
    else LastOf(blocks[..|blocks| - 1], kind)
  }

  lemma LastOfCons(b: Block, blocks: seq<Block>, kind: int)
    ensures LastOf([b] + blocks, kind)
         == if LastOf(blocks, kind).Some? then LastOf(blocks, kind)
            else if b.kind == kind then Some(b.payload) else None
    decreases |blocks|
  {
    var all := [b] + blocks;
    if blocks == [] {
      assert all == [b] && all[..0] == [];
    } else {
      assert all[..|all| - 1] == [b] + blocks[..|blocks| - 1];
      LastOfCons(b, blocks[..|blocks| - 1], kind);
    }
  }

  lemma ReadBlock(before: seq<byte>, b: Block, after: seq<byte>)
    requires FitsAttribute(b.kind, b.payload)
    ensures var body, at := before + Attribute(b.kind, b.payload) + after, |before|;
            && AttributeAt(body, at)
            && Read16(body, at) == RTATTR + |b.payload|
            && Read16(body, at + 2) == b.kind
            && body[at + RTATTR..at + RTATTR + |b.payload|] == b.payload
  {
    hide U16, Read16;
    var body, at := before + Attribute(b.kind, b.payload) + after, |before|;
    assert body == before + U16(RTATTR + |b.payload|) + body[at + 2..];
    U16RoundTrip(RTATTR + |b.payload|, before, body[at + 2..]);
    assert body == body[..at + 2] + U16(b.kind) + body[at + 4..];
    U16RoundTrip(b.kind, body[..at + 2], body[at + 4..]);
  }

  /** One attribute is read off the front. */
  lemma ReadOne(before: seq<byte>, b: Block, after: seq<byte>, found: map<int, seq<byte>>)
    requires FitsAttribute(b.kind, b.payload)
    ensures var head := before + Attribute(b.kind, b.payload);
            Attributes(head + after, |before|, found) == Attributes(head + after, |head|, found[b.kind := b.payload])
  {
    var head := before + Attribute(b.kind, b.payload);
    ReadBlock(before, b, after);
    assert |head| == |before| + Aligned(RTATTR + |b.payload|);
    hide Attribute, Read16, Aligned;
  }

  /** What a list of blocks adds to what was found already. */
  function Overlaid(found: map<int, seq<byte>>, blocks: seq<Block>): map<int, seq<byte>>
    decreases |blocks|
  {
    if blocks == [] then found else Overlaid(found[blocks[0].kind := blocks[0].payload], blocks[1..])
  }

  lemma {:induction false} AttributesAfter(before: seq<byte>, blocks: seq<Block>, found: map<int, seq<byte>>)
    requires AllFitBlocks(blocks)
    ensures Attributes(before + Blocks(blocks), |before|, found) == Overlaid(found, blocks)
    decreases |blocks|
  {
    hide Attribute, FitsAttribute, Attributes;
    if blocks == [] {
      assert before + Blocks(blocks) == before;
      ReadNothing(before, found);
    } else {
      var b, rest := blocks[0], blocks[1..];
      var head := before + Attribute(b.kind, b.payload);
      assert before + Blocks(blocks) == head + Blocks(rest);
      ReadOne(before, b, Blocks(rest), found);
      AttributesAfter(head, rest, found[b.kind := b.payload]);
    }
  }

  lemma ReadNothing(before: seq<byte>, found: map<int, seq<byte>>)
    ensures Attributes(before, |before|, found) == found
  {
  }

  lemma {:induction false} OverlaidIsLast(found: map<int, seq<byte>>, blocks: seq<Block>, kind: int)
    ensures Find(Overlaid(found, blocks), kind)
         == if LastOf(blocks, kind).Some? then LastOf(blocks, kind) else Find(found, kind)
    decreases |blocks|
  {
    if blocks != [] {
      OverlaidIsLast(found[blocks[0].kind := blocks[0].payload], blocks[1..], kind);
      LastOfCons(blocks[0], blocks[1..], kind);
      assert [blocks[0]] + blocks[1..] == blocks;
    }
  }

  function Find(found: map<int, seq<byte>>, kind: int): Option<seq<byte>> {
    if kind in found then Some(found[kind]) else None
  }

  /** Reading any concatenation of attributes finds each kind with the last payload given for
      it, and nothing else. */
  lemma AttributesRoundTrip(before: seq<byte>, blocks: seq<Block>)
    requires AllFitBlocks(blocks)
    ensures forall kind :: Find(Attributes(before + Blocks(blocks), |before|, map[]), kind) == LastOf(blocks, kind)
  {
    AttributesAfter(before, blocks, map[]);
    forall kind ensures Find(Overlaid(map[], blocks), kind) == LastOf(blocks, kind) {
      OverlaidIsLast(map[], blocks, kind);
    }
  }

  // -------------------------------------------------------------------------------- the link

  /** One link as the kernel described it; the name still as its bytes. */
  datatype LinkFacts = LinkFacts(ifindex: int, name: Option<seq<byte>>, mtu: Option<int>)

  function UInt32(payload: Option<seq<byte>>): Option<int> {
    if payload.None? || |payload.value| < 4 then None else Some(Read32(payload.value, 0))
  }

  /** Up to the first zero byte. */
  function Text(payload: seq<byte>): (t: seq<byte>)
    ensures 0 !in t
  {
    if payload == [] || payload[0] == 0 then [] else [payload[0]] + Text(payload[1..])
  }

  function NameOf(payload: Option<seq<byte>>): Option<seq<byte>> {
    if payload.None? then None else Some(Text(payload.value))
  }

  function FactsOf(body: seq<byte>): Option<LinkFacts> {
    if |body| < IFINFO then None
    else
      var found := Attributes(body, IFINFO, map[]);
      Some(LinkFacts(ReadI32(body, 4), NameOf(Find(found, IFLA_IFNAME)), UInt32(Find(found, IFLA_MTU))))
  }

  /** The mutating frame is exactly one RTM_NEWLINK with this sequence, and what it says about
      the link is this index and this MTU and nothing more. */
  lemma SetMtuRoundTrip(ifindex: int, mtu: int, sequence: int)
    requires 0 <= ifindex < 0x8000_0000 && 0 <= mtu < U32_LIMIT && 0 <= sequence < U32_LIMIT
    ensures var r := Messages(SetMtuRequest(ifindex, mtu, sequence), 0);
            && !r.malformed
            && |r.messages| == 1
            && r.messages[0].kind == RTM_NEWLINK
            && r.messages[0].sequence == sequence
            && FactsOf(r.messages[0].body) == Some(LinkFacts(ifindex, None, Some(mtu)))
  {
    var body := LinkBody(ifindex) + Attribute(IFLA_MTU, U32(mtu));
    SplitAlone(FrameSpec(RTM_NEWLINK, NLM_F_REQUEST + NLM_F_ACK, sequence, body));
    BodyRoundTrip(ifindex, mtu);
  }

  lemma BodyRoundTrip(ifindex: int, mtu: int)
    requires 0 <= ifindex < 0x8000_0000 && 0 <= mtu < U32_LIMIT
    ensures FactsOf(LinkBody(ifindex) + Attribute(IFLA_MTU, U32(mtu))) == Some(LinkFacts(ifindex, None, Some(mtu)))
  {
    var body := LinkBody(ifindex) + Attribute(IFLA_MTU, U32(mtu));
    U32RoundTrip(ifindex, [0, 0] + U16(0), U32(0) + U32(0) + Attribute(IFLA_MTU, U32(mtu)));
    assert body == [0, 0] + U16(0) + U32(ifindex) + (U32(0) + U32(0) + Attribute(IFLA_MTU, U32(mtu)));
    var blocks := [Block(IFLA_MTU, U32(mtu))];
    assert Blocks(blocks) == Attribute(IFLA_MTU, U32(mtu)) by { assert blocks[1..] == []; }
    AttributesRoundTrip(LinkBody(ifindex), blocks);
    assert LastOf(blocks, IFLA_MTU) == Some(U32(mtu));
    assert LastOf(blocks, IFLA_IFNAME) == None by { assert blocks[..0] == []; }
    U32RoundTrip(mtu, [], []);
    assert [] + U32(mtu) + [] == U32(mtu);
  }

  /** A name is what stands before the first zero byte. */
  lemma {:induction false} TextStopsAtZero(name: seq<byte>, rest: seq<byte>)
    requires 0 !in name
    ensures Text(name) == name && Text(name + [0] + rest) == name
    decreases |name|
  {
    var payload := name + [0] + rest;
    if name != [] {
      TextStopsAtZero(name[1..], rest);
      assert payload[1..] == name[1..] + [0] + rest;
      assert 0 !in name[1..];
    }
  }

  lemma IndexIsRead(head: seq<byte>, ifindex: int, rest: seq<byte>)
    requires |head| == 4 && 0 <= ifindex < 0x8000_0000
    ensures ReadI32(head + U32(ifindex) + rest, 4) == ifindex
  {
    U32RoundTrip(ifindex, head, rest);
    hide U32, Read32;
  }

  lemma WordIsRead(n: int)
    requires 0 <= n < U32_LIMIT
    ensures Read32(U32(n), 0) == n
  {
    U32RoundTrip(n, [], []);
    hide U32, Read32;
    assert [] + U32(n) + [] == U32(n);
  }

  /** Attributes that give this name and this MTU, whatever others there are: the last of type 3 is
      the name and a zero byte, the last of type 4 the MTU low byte first. */
  ghost predicate Describes(blocks: seq<Block>, name: seq<byte>, mtu: int) {
    && AllFitBlocks(blocks) && 0 !in name && 0 <= mtu < U32_LIMIT
    && (exists after :: LastOf(blocks, 3) == Some(name + [0] + after))
    && LastOf(blocks, 4) == Some(U32(mtu))
  }

  /** What a link's description says: the index from its bytes 4 to 8, and what its attributes do. */
  lemma DescriptionIsRead(head: seq<byte>, ifindex: int, tail: seq<byte>, blocks: seq<Block>, name: seq<byte>, mtu: int)
    requires |head| == 4 && |tail| == 8 && 0 <= ifindex < 0x8000_0000 && Describes(blocks, name, mtu)
    ensures FactsOf(head + U32(ifindex) + tail + Blocks(blocks)) == Some(LinkFacts(ifindex, Some(name), Some(mtu)))
    ensures |head + U32(ifindex) + tail + Blocks(blocks)| == 16 + |Blocks(blocks)|
  {
    var link := head + U32(ifindex) + tail;
    var body := link + Blocks(blocks);
    var after :| LastOf(blocks, 3) == Some(name + [0] + after);
    AttributesRoundTrip(link, blocks);
    IndexIsRead(head, ifindex, tail + Blocks(blocks));
    assert body == head + U32(ifindex) + (tail + Blocks(blocks));
    TextStopsAtZero(name, after);
    WordIsRead(mtu);
    hide Attributes, U32, Read32, ReadI32, Blocks, Text, LastOf, AllFitBlocks;
    var found := Attributes(body, 16, map[]);
    assert Find(found, 3) == LastOf(blocks, 3) && Find(found, 4) == LastOf(blocks, 4);
  }

  // ------------------------------------------------------------------------ reading a link query

  datatype QueryVerdict =
    | Found(facts: LinkFacts)
    | NotFound
    | Rejected
    | Uncorrelated
    | WrongInterface
    | NoLink
    | MalformedReply
    | Unreadable

  const LEAST_I32 := -0x8000_0000

  /** An error nothing can be made of: it is too short to hold its code, or the code's opposite is
      no error number the C library can be asked to describe. */
  predicate CannotBeTold(body: seq<byte>) {
    |body| < 4 || ReadI32(body, 0) == LEAST_I32
  }

  /** The kernel's answer to a link query, read message by message: nothing after the deciding
      one is looked at. Some errors cannot be told at all. */
  function InterpretFrom(messages: seq<Message>, malformed: bool, ifindex: int, sequence: int): QueryVerdict
    decreases |messages|
  {
    if messages == [] then if malformed then MalformedReply else NoLink
    else
      var m := messages[0];
      if m.kind == NLMSG_ERROR then
        if CannotBeTold(m.body) then Unreadable
        else if ReadI32(m.body, 0) == 0 then InterpretFrom(messages[1..], malformed, ifindex, sequence)
        else if ReadI32(m.body, 0) == -ENODEV then NotFound
        else Rejected
      else if m.kind == RTM_NEWLINK then
        if m.sequence != sequence then Uncorrelated
        else
          match FactsOf(m.body)
          case None => NoLink
          case Some(facts) => if facts.ifindex != ifindex then WrongInterface else Found(facts)
      else InterpretFrom(messages[1..], malformed, ifindex, sequence)
  }

  function InterpretLink(reply: seq<byte>, ifindex: int, sequence: int): QueryVerdict {
    var split := Messages(reply, 0);
    InterpretFrom(split.messages, split.malformed, ifindex, sequence)
  }

  method ReadLink(reply: seq<byte>, ifindex: int, sequence: int) returns (verdict: QueryVerdict)
    ensures verdict == InterpretLink(reply, ifindex, sequence)
  {
    var split := SplitMessages(reply);
    var i := 0;
    while i < |split.messages|
      invariant 0 <= i <= |split.messages|
      invariant InterpretLink(reply, ifindex, sequence)
             == InterpretFrom(split.messages[i..], split.malformed, ifindex, sequence)
    {
      var m := split.messages[i];
      assert split.messages[i..][1..] == split.messages[i + 1..];
      if m.kind == NLMSG_ERROR {
        if CannotBeTold(m.body) { return Unreadable; }
        var code := ReadI32(m.body, 0);
        if code != 0 { return if code == -ENODEV then NotFound else Rejected; }
      } else if m.kind == RTM_NEWLINK {
        if m.sequence != sequence { return Uncorrelated; }
        var facts := FactsOf(m.body);
        if facts.None? { return NoLink; }
        return if facts.value.ifindex != ifindex then WrongInterface else Found(facts.value);
      }
      i := i + 1;
    }
    return if split.malformed then MalformedReply else NoLink;
  }

  /** The kernel's description of the link that was asked about is found, and what was found is what
      it says. */
  lemma LinkRoundTrip(head: seq<byte>, ifindex: int, tail: seq<byte>, blocks: seq<Block>, name: seq<byte>, mtu: int,
                      sequence: int)
    requires |head| == 4 && |tail| == 8 && 0 <= ifindex < 0x8000_0000 && Describes(blocks, name, mtu)
    requires 0 <= sequence < U32_LIMIT && 32 + |Blocks(blocks)| < U32_LIMIT
    ensures var body := head + U32(ifindex) + tail + Blocks(blocks);
            && FitsFrame(16, 0, sequence, body)
            && InterpretLink(Frame(16, 0, sequence, body), ifindex, sequence)
               == Found(LinkFacts(ifindex, Some(name), Some(mtu)))
  {
    var body := head + U32(ifindex) + tail + Blocks(blocks);
    DescriptionIsRead(head, ifindex, tail, blocks, name, mtu);
    BlocksAreAligned(blocks);
    hide Describes, Blocks, Frame, FactsOf, InterpretLink, U32;
    DescriptionIsFound(body, ifindex, sequence, LinkFacts(ifindex, Some(name), Some(mtu)));
  }

  /** A correlated RTM_NEWLINK on its own is the answer. */
  lemma DescriptionIsFound(body: seq<byte>, ifindex: int, sequence: int, facts: LinkFacts)
    requires 0 <= sequence < U32_LIMIT && 16 + |body| < U32_LIMIT && |body| % 4 == 0
    requires FactsOf(body) == Some(facts) && facts.ifindex == ifindex
    ensures FitsFrame(16, 0, sequence, body)
    ensures InterpretLink(Frame(16, 0, sequence, body), ifindex, sequence) == Found(facts)
  {
    SplitAlone(FrameSpec(16, 0, sequence, body));
    hide Messages, Frame, FactsOf;
  }

  lemma {:induction false} BlocksAreAligned(blocks: seq<Block>)
    requires AllFitBlocks(blocks)
    ensures |Blocks(blocks)| % 4 == 0
    decreases |blocks|
  {
    hide FitsAttribute;
    if blocks != [] { BlocksAreAligned(blocks[1..]); }
  }

  /** A query the kernel refuses is refused: error 19 says that there is no such link, any other that
      it may not be asked. */
  lemma RefusedQueryIsRead(errno: int, ifindex: int, sequence: int)
    requires 0 < errno < 0x8000_0000 && 0 <= sequence < U32_LIMIT
    ensures FitsFrame(2, 0, sequence, U32(U32_LIMIT - errno))
    ensures InterpretLink(Frame(2, 0, sequence, U32(U32_LIMIT - errno)), ifindex, sequence)
         == if errno == 19 then NotFound else Rejected
  {
    var body := U32(U32_LIMIT - errno);
    U32RoundTrip(U32_LIMIT - errno, [], []);
    assert [] + body + [] == body;
    SplitAlone(FrameSpec(2, 0, sequence, body));
    hide Messages, Frame, U32, Read32;
  }

  predicate Skipped(m: Message) {
    if m.kind == NLMSG_ERROR then |m.body| >= 4 && ReadI32(m.body, 0) == 0 else m.kind != RTM_NEWLINK
  }

  /** A link is found only in the first message that is not passed over, a correlated
      RTM_NEWLINK about the index that was asked for. */
  lemma {:induction false} FoundIsCorrelated(messages: seq<Message>, malformed: bool, ifindex: int, sequence: int)
    returns (k: nat)
    requires InterpretFrom(messages, malformed, ifindex, sequence).Found?
    ensures k < |messages| && (forall i :: 0 <= i < k ==> Skipped(messages[i]))
    ensures messages[k].kind == RTM_NEWLINK && messages[k].sequence == sequence
    ensures FactsOf(messages[k].body) == Some(InterpretFrom(messages, malformed, ifindex, sequence).facts)
    ensures InterpretFrom(messages, malformed, ifindex, sequence).facts.ifindex == ifindex
    decreases |messages|
  {
    k := 0;
    if Skipped(messages[0]) {
      var rest := FoundIsCorrelated(messages[1..], malformed, ifindex, sequence);
      forall i | 0 <= i < rest + 1 ensures Skipped(messages[i]) {
        if i > 0 { assert messages[i] == messages[1..][i - 1]; }
      }
      k := rest + 1;
    }
  }

  /** A query's reply cannot be read exactly when the first message that is not passed over is
      an error that cannot be told. */
  predicate UntoldQueryError(messages: seq<Message>, k: nat) {
    && k < |messages|
    && messages[k].kind == NLMSG_ERROR
    && (|messages[k].body| < 4 || ReadI32(messages[k].body, 0) == -0x8000_0000)
    && forall i :: 0 <= i < k ==> Skipped(messages[i])
  }

  ghost predicate Untold(messages: seq<Message>) {
    exists k: nat :: UntoldQueryError(messages, k)
  }

  lemma {:induction false} UnreadableFrom(messages: seq<Message>, malformed: bool, ifindex: int, sequence: int)
    ensures InterpretFrom(messages, malformed, ifindex, sequence) == Unreadable
            <==> Untold(messages)
    decreases |messages|
  {
    if messages != [] {
      if Skipped(messages[0]) {
        var rest := messages[1..];
        UnreadableFrom(rest, malformed, ifindex, sequence);
        if k: nat :| UntoldQueryError(rest, k) {
          forall i | 0 <= i < k + 1 ensures Skipped(messages[i]) {
            if i > 0 { assert messages[i] == rest[i - 1]; }
          }
          assert UntoldQueryError(messages, k + 1);
        }
        if k: nat :| UntoldQueryError(messages, k) {
          assert k > 0;
          assert forall i :: 0 <= i < k - 1 ==> rest[i] == messages[i + 1];
          assert UntoldQueryError(rest, k - 1);
        }
      } else if messages[0].kind == NLMSG_ERROR && CannotBeTold(messages[0].body) {
        assert UntoldQueryError(messages, 0);
      }
    }
  }

  lemma UnreadableQueryIff(reply: seq<byte>, ifindex: int, sequence: int)
    ensures InterpretLink(reply, ifindex, sequence) == Unreadable <==> Untold(Messages(reply, 0).messages)
  {
    var split := Messages(reply, 0);
    UnreadableFrom(split.messages, split.malformed, ifindex, sequence);
    hide Untold, Messages;
  }

  // --------------------------------------------------------------------- the acknowledgement

  datatype Ack =
    | Code(errno: int)
    | AckUncorrelated
    | EchoesAnother
    | NoAck
    | AckMalformed
    | AckUnreadable

  /** The header an error echoes back, when it carries one. */
  function Echoed(body: seq<byte>): Option<(int, int)> {
    if |body| < 4 + HEADER then None else Some((Read16(body, 4 + 4), Read32(body, 4 + 8)))
  }

  function AcknowledgedBy(m: Message, sequence: int): Ack {
    if m.sequence != sequence then AckUncorrelated
    else if Echoed(m.body).Some? && Echoed(m.body).value != (RTM_NEWLINK, sequence) then EchoesAnother
    else if CannotBeTold(m.body) then AckUnreadable
    else Code(-ReadI32(m.body, 0))
  }

  function FirstError(messages: seq<Message>): (k: nat)
    ensures k <= |messages|
    ensures forall i :: 0 <= i < k ==> messages[i].kind != NLMSG_ERROR
    ensures k < |messages| ==> messages[k].kind == NLMSG_ERROR
  {
    if messages == [] || messages[0].kind == NLMSG_ERROR then 0
    else
      var k := FirstError(messages[1..]);
      assert forall i :: 0 < i < k + 1 ==> messages[i] == messages[1..][i - 1];
      k + 1
  }

  /** Unlike a query, the whole reply is split first: one malformed header leaves the outcome
      open whatever came before it. */
  function Acknowledgement(reply: seq<byte>, sequence: int): Ack {
    var split := Messages(reply, 0);
    if split.malformed then AckMalformed
    else
      var k := FirstError(split.messages);
      if k == |split.messages| then NoAck else AcknowledgedBy(split.messages[k], sequence)
  }

  method ReadAcknowledgement(reply: seq<byte>, sequence: int) returns (ack: Ack)
    ensures ack == Acknowledgement(reply, sequence)
  {
    var split := SplitMessages(reply);
    if split.malformed { return AckMalformed; }
    var i := 0;
    while i < |split.messages|
      invariant 0 <= i <= |split.messages|
      invariant FirstError(split.messages) == i + FirstError(split.messages[i..])
    {
      assert split.messages[i..][1..] == split.messages[i + 1..];
      if split.messages[i].kind == NLMSG_ERROR {
        return AcknowledgedBy(split.messages[i], sequence);
      }
      i := i + 1;
    }
    ack := NoAck;
  }

  /** What an acknowledgement says about the write. */
  function OutcomeOf(ack: Ack): MutationOutcome {
    match ack
    case Code(errno) => if errno == 0 then Written else NotWritten
    case _ => WriteUnknown
  }

  /** Message `k` is an error, nothing before it is, it carries this sequence, and it echoes no
      other request. */
  predicate FirstAndOurs(messages: seq<Message>, k: nat, sequence: int) {
    && k < |messages|
    && messages[k].kind == NLMSG_ERROR
    && (forall i :: 0 <= i < k ==> messages[i].kind != NLMSG_ERROR)
    && messages[k].sequence == sequence
    && var body := messages[k].body;
       |body| >= 4 + HEADER ==> Read16(body, 8) == RTM_NEWLINK && Read32(body, 12) == sequence
  }

  lemma FirstErrorIsFirst(messages: seq<Message>, k: nat)
    requires k < |messages| && messages[k].kind == NLMSG_ERROR
    requires forall i :: 0 <= i < k ==> messages[i].kind != NLMSG_ERROR
    ensures FirstError(messages) == k
  {
    var first := FirstError(messages);
    assert first < |messages| && messages[first].kind == NLMSG_ERROR;
  }

  lemma AcknowledgedByTheFirst(reply: seq<byte>, sequence: int, k: nat)
    requires !Messages(reply, 0).malformed && FirstAndOurs(Messages(reply, 0).messages, k, sequence)
    ensures var body := Messages(reply, 0).messages[k].body;
            Acknowledgement(reply, sequence) == if CannotBeTold(body) then AckUnreadable else Code(-ReadI32(body, 0))
  {
    FirstErrorIsFirst(Messages(reply, 0).messages, k);
    hide Messages;
  }

  /** An acknowledgement says nothing of this request unless the first error of a well-formed
      reply is its own. */
  lemma NotOursIsUnknown(reply: seq<byte>, sequence: int)
    requires Messages(reply, 0).malformed || forall k: nat :: !FirstAndOurs(Messages(reply, 0).messages, k, sequence)
    ensures !Acknowledgement(reply, sequence).Code? && Acknowledgement(reply, sequence) != AckUnreadable
  {
    var messages := Messages(reply, 0).messages;
    var k := FirstError(messages);
    assert !Messages(reply, 0).malformed ==> !FirstAndOurs(messages, k, sequence);
    hide Messages;
  }

  /** The first error of the reply is this request's, and this is what is in it. */
  ghost predicate Says(reply: seq<byte>, sequence: int, body: seq<byte>) {
    && !Messages(reply, 0).malformed
    && exists k: nat :: FirstAndOurs(Messages(reply, 0).messages, k, sequence)
                        && body == Messages(reply, 0).messages[k].body
  }

  lemma SaysDecides(reply: seq<byte>, sequence: int, body: seq<byte>)
    requires Says(reply, sequence, body)
    ensures Acknowledgement(reply, sequence) == if CannotBeTold(body) then AckUnreadable else Code(-ReadI32(body, 0))
  {
    var k: nat :| FirstAndOurs(Messages(reply, 0).messages, k, sequence) && body == Messages(reply, 0).messages[k].body;
    hide Messages, FirstAndOurs, Acknowledgement;
    AcknowledgedByTheFirst(reply, sequence, k);
  }

  /** For every reply there is: a write is reported exactly when the reply is well formed, its
      first error belongs to this request and its code is zero; a refusal exactly when it belongs
      to this request and its code is not; and what cannot be read at all is exactly a first error
      of ours that cannot be told. Everything else leaves the outcome open. */
  lemma WrittenIff(reply: seq<byte>, sequence: int)
    ensures OutcomeOf(Acknowledgement(reply, sequence)) == Written
            <==> exists body :: Says(reply, sequence, body) && |body| >= 4 && ReadI32(body, 0) == 0
    ensures OutcomeOf(Acknowledgement(reply, sequence)) == NotWritten
            <==> exists body :: Says(reply, sequence, body)
                                && |body| >= 4 && ReadI32(body, 0) !in {0, -0x8000_0000}
    ensures Acknowledgement(reply, sequence) == AckUnreadable
            <==> exists body :: Says(reply, sequence, body) && (|body| < 4 || ReadI32(body, 0) == -0x8000_0000)
  {
    forall body | Says(reply, sequence, body)
      ensures Acknowledgement(reply, sequence) == if CannotBeTold(body) then AckUnreadable else Code(-ReadI32(body, 0))
    {
      SaysDecides(reply, sequence, body);
    }
    if forall body :: !Says(reply, sequence, body) { NobodySays(reply, sequence); }
    hide Says, Acknowledgement, ReadI32;
  }

  lemma NobodySays(reply: seq<byte>, sequence: int)
    requires forall body :: !Says(reply, sequence, body)
    ensures !Acknowledgement(reply, sequence).Code? && Acknowledgement(reply, sequence) != AckUnreadable
  {
    var r := Messages(reply, 0);
    if !r.malformed {
      forall k: nat ensures !FirstAndOurs(r.messages, k, sequence) {
        if k < |r.messages| { assert !Says(reply, sequence, r.messages[k].body); }
      }
    }
    hide Says, Messages, FirstAndOurs, Acknowledgement;
    NotOursIsUnknown(reply, sequence);
  }

  /** What the kernel sends back: the code, and the header of the request it answers. */
  function ErrorBody(errno: int, ifindex: int, mtu: int, sequence: int): (b: seq<byte>)
    requires 0 <= ifindex < 0x8000_0000 && 0 <= mtu < U32_LIMIT && 0 <= sequence < U32_LIMIT
    requires 0 <= errno < 0x8000_0000
    ensures |b| == 4 + HEADER
  {
    U32(if errno == 0 then 0 else U32_LIMIT - errno) + SetMtuRequest(ifindex, mtu, sequence)[..HEADER]
  }

  lemma ErrorBodyReads(errno: int, ifindex: int, mtu: int, sequence: int)
    requires 0 <= ifindex < 0x8000_0000 && 0 <= mtu < U32_LIMIT && 0 <= sequence < U32_LIMIT
    requires 0 <= errno < 0x8000_0000
    ensures var b := ErrorBody(errno, ifindex, mtu, sequence);
            && ReadI32(b, 0) == -errno
            && Read16(b, 8) == RTM_NEWLINK
            && Read32(b, 12) == sequence
  {
    var b := ErrorBody(errno, ifindex, mtu, sequence);
    var raw := if errno == 0 then 0 else U32_LIMIT - errno;
    U32RoundTrip(raw, [], b[4..]);
    assert b == [] + U32(raw) + b[4..];
    U16RoundTrip(RTM_NEWLINK, b[..8], b[10..]);
    assert b == b[..8] + U16(RTM_NEWLINK) + b[10..];
    U32RoundTrip(sequence, b[..12], b[16..]);
    assert b == b[..12] + U32(sequence) + b[16..];
  }

  /** An ordinary acknowledgement is understood: the error message the kernel sends for this
      very request, echoing its header, is read as the code it carries. */
  lemma AcknowledgementRoundTrip(ifindex: int, mtu: int, sequence: int, errno: int)
    requires 0 <= ifindex < 0x8000_0000 && 0 <= mtu < U32_LIMIT && 0 <= sequence < U32_LIMIT
    requires 0 <= errno < 0x8000_0000
    ensures var body := ErrorBody(errno, ifindex, mtu, sequence);
            FitsFrame(NLMSG_ERROR, 0, sequence, body)
            && Acknowledgement(Frame(NLMSG_ERROR, 0, sequence, body), sequence) == Code(errno)
  {
    var body := ErrorBody(errno, ifindex, mtu, sequence);
    SplitAlone(FrameSpec(NLMSG_ERROR, 0, sequence, body));
    ErrorBodyReads(errno, ifindex, mtu, sequence);
    hide Messages, Frame, ErrorBody, Read16, Read32, ReadI32;
  }

  /** There are such replies: an error of ours with nothing in it, and one that is whole but for
      its code, which has no opposite among the error numbers. */
  lemma ShortErrorCannotBeRead(sequence: int)
    requires 0 <= sequence < U32_LIMIT
    ensures FitsFrame(NLMSG_ERROR, 0, sequence, [])
    ensures Acknowledgement(Frame(NLMSG_ERROR, 0, sequence, []), sequence) == AckUnreadable
  {
    SplitAlone(FrameSpec(NLMSG_ERROR, 0, sequence, []));
    hide Messages, Frame;
  }

  lemma LeastCodeCannotBeRead(ifindex: int, sequence: int)
    requires 0 <= sequence < U32_LIMIT
    ensures FitsFrame(NLMSG_ERROR, 0, sequence, U32(0x8000_0000))
    ensures ReadI32(U32(0x8000_0000), 0) == LEAST_I32
    ensures Acknowledgement(Frame(NLMSG_ERROR, 0, sequence, U32(0x8000_0000)), sequence) == AckUnreadable
    ensures InterpretLink(Frame(NLMSG_ERROR, 0, sequence, U32(0x8000_0000)), ifindex, sequence) == Unreadable
  {
    var body := U32(0x8000_0000);
    U32RoundTrip(0x8000_0000, [], []);
    assert [] + body + [] == body;
    SplitAlone(FrameSpec(NLMSG_ERROR, 0, sequence, body));
    hide Messages, Frame, U32, Read32;
  }
}
