/** Serialising packets to datagrams and parsing them back: a grammar of the wire format, the
    program's two loops, and the round trips between them. */
module Codec {
  import opened Words
  import opened Packets

  // ---------------------------------------------------------------------------------------
  // The wire format
  // ---------------------------------------------------------------------------------------

  function Pow2(k: nat): nat {
    if k == 0 then 1 else 2 * Pow2(k - 1)
  }

  /** Bitwise or of the `k` lowest bits of two numbers. */
  function OrBits(a: nat, b: nat, k: nat): (r: nat)
    ensures r < Pow2(k)
  {
    if k == 0 then 0
    else (if a % 2 == 1 || b % 2 == 1 then 1 else 0) + 2 * OrBits(a / 2, b / 2, k - 1)
  }

  function Or8(a: u8, b: u8): u8 {
    assert Pow2(8) == 256;
    OrBits(a, b, 8)
  }

  function PutU16(x: u16): (b: Bytes)
    ensures |b| == 2
  {
    [x / 0x100, x % 0x100]
  }

  function PutU32(x: u32): (b: Bytes)
    ensures |b| == 4
  {
    PutU16(x / 0x1_0000) + PutU16(x % 0x1_0000)
  }

  function GetU16(b: Bytes): (x: u16)
    requires |b| >= 2
    ensures PutU16(x) == b[..2]
  {
    var hi: int, lo: int := b[0], b[1];
    hi * 0x100 + lo
  }

  function GetU32(b: Bytes): (x: u32)
    requires |b| >= 4
    ensures PutU32(x) == b[..4]
  {
    var hi: int, lo: int := GetU16(b), GetU16(b[2..]);
    assert b[..4] == b[..2] + b[2..][..2];
    assert (hi * 0x1_0000 + lo) / 0x1_0000 == hi;
    hi * 0x1_0000 + lo
  }

  /** The type byte announcing `es`: the type of its first extension, or `last` if there is none. */
  function FirstType(es: seq<Extension>, last: u8): u8 {
    if es == [] then last else ExtensionTypeToByte(es[0].extensionType)
  }

  /** The linked list of extensions followed by `rest`. Each element carries the type byte of its
      successor; the final one carries `last`. */
  function PrintLinks(es: seq<Extension>, last: u8, rest: Bytes): Bytes {
    if es == [] then rest
    else
      [FirstType(es[1..], last), |es[0].data| % 0x100] + es[0].data + PrintLinks(es[1..], last, rest)
  }

  function PrintHeader(p: Packet): (h: Bytes)
    ensures |h| == PACKET_HEADER_LEN
  {
    [Or8(PacketTypeToByte(p.packetType) * 16, p.version)]
    + [FirstType(p.extensions, 0)]
    + PutU16(p.connectionId)
    + PutU32(p.timestampMicros)
    + PutU32(p.timestampDeltaMicros)
    + PutU32(p.windowSize)
    + PutU16(p.seqNumber)
    + PutU16(p.ackNumber)
  }

  /** The datagram that stands for a packet. */
  function Print(p: Packet): Bytes {
    PrintHeader(p) + PrintLinks(p.extensions, 0, p.data)
  }

  datatype Chain = Chain(extensions: seq<Extension>, rest: Bytes)

  function Prepend(es: seq<Extension>, r: Result<Chain, ParseError>): Result<Chain, ParseError> {
    match r
    case Ok(c) => Ok(Chain(es + c.extensions, c.rest))
    case Err(_) => r
  }

  /** The extension list read off `b` when the preceding element announced type byte `t`;
      `index` is the position of the first one in the packet. */
  function ParseChain(t: u8, b: Bytes, index: nat): Result<Chain, ParseError>
    decreases |b|
  {
    if t == 0 then
      Ok(Chain([], b))
    else if |b| < 2 then
      Err(MissingExtension(index))
    else if b[1] > |b| - 2 then
      Err(IncompleteExtension(index, b[1], |b| - 2))
    else
      Prepend([Extension(ExtensionTypeFromByte(t), b[2..2 + b[1]])],
            ParseChain(b[0], b[2 + b[1]..], index + 1))
  }

  function ParsePacket(b: Bytes): Result<Packet, ParseError> {
    if |b| < PACKET_HEADER_LEN then
      Err(TooSmall)
    else
      match PacketTypeFromByte(b[0] / 16)
      case Err(e) => Err(e)
      case Ok(packetType) =>
        if b[0] % 16 != 1 then
          Err(UnsupportedVersion(b[0] % 16))
        else
          match ParseChain(b[1], b[PACKET_HEADER_LEN..], 0)
          case Err(e) => Err(e)
          case Ok(c) =>
            Ok(Packet(packetType, 1, GetU16(b[2..]), GetU32(b[4..]), GetU32(b[8..]), GetU32(b[12..]),
                      GetU16(b[16..]), GetU16(b[18..]), c.extensions, c.rest))
  }

  // ---------------------------------------------------------------------------------------
  // The program's loops
  // ---------------------------------------------------------------------------------------

  lemma {:induction false} PrintLinksSplit(es: seq<Extension>, i: nat, last: u8, rest: Bytes)
    requires i < |es|
    ensures PrintLinks(es[i..], last, rest)
         == [FirstType(es[i + 1..], last), |es[i].data| % 0x100] + es[i].data
            + PrintLinks(es[i + 1..], last, rest)
  {
    assert es[i..][1..] == es[i + 1..];
  }

  function ExtensionBytes(es: seq<Extension>): nat {
    if es == [] then 0 else 2 + |es[0].data| + ExtensionBytes(es[1..])
  }

  lemma {:induction false} PrintLinksLength(es: seq<Extension>, last: u8, rest: Bytes)
    ensures |PrintLinks(es, last, rest)| == ExtensionBytes(es) + |rest|
  {
    if es != [] {
      PrintLinksLength(es[1..], last, rest);
    }
  }

  method AppendExtensions(header: Bytes, p: Packet) returns (result: Bytes)
    ensures result + p.data == header + PrintLinks(p.extensions, 0, p.data)
  {
    var es := p.extensions;
    result := header;
    assert es[0..] == es;
    for i := 0 to |es|
      invariant result + PrintLinks(es[i..], 0, p.data) == header + PrintLinks(es, 0, p.data)
    {
      PrintLinksSplit(es, i, 0, p.data);
      ghost var before, tail := result, PrintLinks(es[i + 1..], 0, p.data);
      var next := if i + 1 < |es| then ExtensionTypeToByte(es[i + 1].extensionType) else 0;
      result := result + [next];
      result := result + [|es[i].data| % 0x100];
      result := result + es[i].data;
      assert result + tail == before + ([next, |es[i].data| % 0x100] + es[i].data + tail);
    }
  }

  /** `impl From<Packet> for Bytes`. The capacity it computes up front is exactly what it fills. */
  method Serialize(p: Packet) returns (result: Bytes)
    ensures result == Print(p)
    ensures |result| == PACKET_HEADER_LEN + |p.data| + ExtensionBytes(p.extensions)
  {
    var es := p.extensions;
    var packetLength := PACKET_HEADER_LEN + |p.data|;
    assert es[0..] == es;
    for i := 0 to |es|
      invariant packetLength + ExtensionBytes(es[i..])
             == PACKET_HEADER_LEN + |p.data| + ExtensionBytes(es)
    {
      assert es[i..][1..] == es[i + 1..];
      packetLength := packetLength + 1 + 1 + |es[i].data|;
    }

    result := [Or8(PacketTypeToByte(p.packetType) * 16, p.version)];
    if es == [] {
      result := result + [ExtensionTypeToByte(NoExtension)];
    } else {
      result := result + [ExtensionTypeToByte(es[0].extensionType)];
    }
    result := result + PutU16(p.connectionId);
    result := result + PutU32(p.timestampMicros);
    result := result + PutU32(p.timestampDeltaMicros);
    result := result + PutU32(p.windowSize);
    result := result + PutU16(p.seqNumber);
    result := result + PutU16(p.ackNumber);
    assert result == PrintHeader(p);

    result := AppendExtensions(result, p);
    result := result + p.data;
    PrintLinksLength(es, 0, p.data);
    assert |result| == packetLength;
  }

  lemma PrependNothing(r: Result<Chain, ParseError>)
    ensures Prepend([], r) == r
  {
    if r.Ok? {
      assert [] + r.value.extensions == r.value.extensions;
    }
  }

  lemma PrependTwice(es: seq<Extension>, fs: seq<Extension>, r: Result<Chain, ParseError>)
    requires |fs| > 0 && es == fs[..|fs| - 1]
    ensures Prepend(es, Prepend([fs[|fs| - 1]], r)) == Prepend(fs, r)
  {
    if r.Ok? {
      assert es + ([fs[|fs| - 1]] + r.value.extensions) == fs + r.value.extensions;
    }
  }

  /** The look-ahead loop of `TryFrom<Bytes> for Packet`. The type byte of the next extension is
      taken off the input one element early, so what is still to be parsed is that byte followed
      by the cursor. */
  method ParseExtensions(firstExtensionType: u8, input: Bytes) returns (r: Result<Chain, ParseError>)
    ensures r == ParseChain(firstExtensionType, input, 0)
  {
    var bytes := input;
    var extensions: seq<Extension> := [];
    var extensionNumber := 0;
    var extensionType := firstExtensionType;
    var nextExtensionType: u8;
    if extensionType != 0 {
      if bytes != [] {
        nextExtensionType := bytes[0];
        bytes := bytes[1..];
        assert [nextExtensionType] + bytes == input;
      } else {
        return Err(MissingExtension(0));
      }
    } else {
      nextExtensionType := 0;
    }

    PrependNothing(ParseChain(firstExtensionType, input, 0));

    while ExtensionTypeFromByte(extensionType) != NoExtension
      invariant extensionType == 0 ==>
                  ParseChain(firstExtensionType, input, 0) == Ok(Chain(extensions, bytes))
      invariant extensionType != 0 ==>
                  ParseChain(firstExtensionType, input, 0)
                  == Prepend(extensions, ParseChain(extensionType, [nextExtensionType] + bytes, extensionNumber))
      decreases |bytes|
    {
      if bytes == [] {
        return Err(MissingExtension(extensionNumber));
      }
      ghost var pending := [nextExtensionType] + bytes;
      var length := bytes[0];
      bytes := bytes[1..];
      if length > |bytes| {
        return Err(IncompleteExtension(extensionNumber, length, |bytes|));
      }
      var extensionData := bytes[..length];
      bytes := bytes[length..];
      assert pending[2..2 + length] == extensionData && pending[2 + length..] == bytes;
      ghost var parsed := extensions;
      extensions := extensions + [Extension(ExtensionTypeFromByte(extensionType), extensionData)];
      PrependTwice(parsed, extensions, ParseChain(nextExtensionType, bytes, extensionNumber + 1));

      assert extensions + [] == extensions;

      extensionNumber := extensionNumber + 1;
      extensionType := nextExtensionType;
      ghost var unread := bytes;
      if nextExtensionType != 0 && bytes != [] {
        nextExtensionType := bytes[0];
        bytes := bytes[1..];
        assert [nextExtensionType] + bytes == unread;
      }
    }
    r := Ok(Chain(extensions, bytes));
  }

  /** `impl TryFrom<Bytes> for Packet`. */
  method Parse(input: Bytes) returns (r: Result<Packet, ParseError>)
    ensures r == ParsePacket(input)
  {
    var bytes := input;
    if |bytes| < PACKET_HEADER_LEN {
      return Err(TooSmall);
    }
    var typeAndVersion := bytes[0];
    var packetType := PacketTypeFromByte(typeAndVersion / 16);
    if packetType.Err? {
      return Err(packetType.error);
    }
    var version := typeAndVersion % 16;
    if version != 1 {
      return Err(UnsupportedVersion(version));
    }
    var firstExtensionType := bytes[1];
    var connectionId := GetU16(bytes[2..]);
    var timestampMicros := GetU32(bytes[4..]);
    var timestampDeltaMicros := GetU32(bytes[8..]);
    var windowSize := GetU32(bytes[12..]);
    var seqNumber := GetU16(bytes[16..]);
    var ackNumber := GetU16(bytes[18..]);
    bytes := bytes[PACKET_HEADER_LEN..];

    var chain := ParseExtensions(firstExtensionType, bytes);
    if chain.Err? {
      return Err(chain.error);
    }
    r := Ok(Packet(packetType.value, version, connectionId, timestampMicros, timestampDeltaMicros,
                   windowSize, seqNumber, ackNumber, chain.value.extensions, chain.value.rest));
  }

  // ---------------------------------------------------------------------------------------
  // The extension grammar
  // ---------------------------------------------------------------------------------------

  /** One element put in front of a list. */
  lemma LinkSound(t: u8, b: Bytes, es: seq<Extension>, rest: Bytes)
    requires t != 0 && |b| >= 2 && b[1] <= |b| - 2
    requires forall e <- es :: WellFormedExtension(e)
    requires b[0] == FirstType(es, 0) && b[2 + b[1]..] == PrintLinks(es, 0, rest)
    ensures var xs := [Extension(ExtensionTypeFromByte(t), b[2..2 + b[1]])] + es;
            && (forall e <- xs :: WellFormedExtension(e))
            && t == FirstType(xs, 0)
            && b == PrintLinks(xs, 0, rest)
  {
    var xs := [Extension(ExtensionTypeFromByte(t), b[2..2 + b[1]])] + es;
    assert xs[1..] == es;
    assert b == [b[0], b[1]] + b[2..2 + b[1]] + b[2 + b[1]..];
  }

  lemma {:induction false} ChainSound(t: u8, b: Bytes, index: nat)
    requires ParseChain(t, b, index).Ok?
    ensures var c := ParseChain(t, b, index).value;
            && (forall e <- c.extensions :: WellFormedExtension(e))
            && t == FirstType(c.extensions, 0)
            && b == PrintLinks(c.extensions, 0, c.rest)
    decreases |b|
  {
    if t != 0 {
      var tail := b[2 + b[1]..];
      ChainSound(b[0], tail, index + 1);
      var d := ParseChain(b[0], tail, index + 1).value;
      LinkSound(t, b, d.extensions, d.rest);
    }
  }

  lemma LinkComplete(es: seq<Extension>, last: u8, rest: Bytes, index: nat)
    requires es != [] && WellFormedExtension(es[0])
    ensures ParseChain(FirstType(es, last), PrintLinks(es, last, rest), index)
         == Prepend([es[0]], ParseChain(FirstType(es[1..], last), PrintLinks(es[1..], last, rest), index + 1))
  {
    var b := PrintLinks(es, last, rest);
    var tail := PrintLinks(es[1..], last, rest);
    var n := |es[0].data|;
    assert b == [FirstType(es[1..], last), n] + es[0].data + tail;
    assert b[2..2 + n] == es[0].data;
    assert b[2 + n..] == tail;
  }

  lemma PrependFirst(es: seq<Extension>, r: Result<Chain, ParseError>)
    requires es != []
    ensures Prepend([es[0]], Prepend(es[1..], r)) == Prepend(es, r)
  {
    if r.Ok? {
      assert [es[0]] + (es[1..] + r.value.extensions) == es + r.value.extensions;
    }
  }

  lemma LinkThenRest(es: seq<Extension>, whole: Result<Chain, ParseError>, tail: Result<Chain, ParseError>,
                     rest: Result<Chain, ParseError>)
    requires es != [] && whole == Prepend([es[0]], tail) && tail == Prepend(es[1..], rest)
    ensures whole == Prepend(es, rest)
  {
    PrependFirst(es, rest);
  }

  /** What parsing the printed links gives. */
  function ParsePrinted(es: seq<Extension>, last: u8, rest: Bytes, index: nat): Result<Chain, ParseError> {
    ParseChain(FirstType(es, last), PrintLinks(es, last, rest), index)
  }

  lemma ChainStep(es: seq<Extension>, last: u8, rest: Bytes, index: nat, parsed: Result<Chain, ParseError>)
    requires es != [] && WellFormedExtension(es[0]) && ParsePrinted(es[1..], last, rest, index + 1) == Prepend(es[1..], parsed)
    ensures ParsePrinted(es, last, rest, index) == Prepend(es, parsed)
  {
    LinkComplete(es, last, rest, index);
    LinkThenRest(es, ParsePrinted(es, last, rest, index), ParsePrinted(es[1..], last, rest, index + 1), parsed);
  }

  lemma {:induction false} PrintedParsed(es: seq<Extension>, last: u8, rest: Bytes, index: nat, parsed: Result<Chain, ParseError>)
    requires forall e <- es :: WellFormedExtension(e)
    requires parsed == ParseChain(last, rest, index + |es|)
    ensures ParsePrinted(es, last, rest, index) == Prepend(es, parsed)
  {
    if es == [] {
      PrependNothing(parsed);
    } else {
      PrintedParsed(es[1..], last, rest, index + 1, parsed);
      ChainStep(es, last, rest, index, parsed);
    }
  }

  /** What follows well-formed links is parsed as if it stood alone, at a later index. */
  lemma ChainComplete(es: seq<Extension>, last: u8, rest: Bytes, index: nat)
    requires forall e <- es :: WellFormedExtension(e)
    ensures ParseChain(FirstType(es, last), PrintLinks(es, last, rest), index)
         == Prepend(es, ParseChain(last, rest, index + |es|))
  {
    PrintedParsed(es, last, rest, index, ParseChain(last, rest, index + |es|));
  }

  /** The chain parser accepts exactly the printed lists of well-formed extensions, and finds
      the one list and the one payload they were printed from. */
  lemma {:induction false} ChainAccepts(t: u8, b: Bytes, index: nat, es: seq<Extension>, rest: Bytes)
    ensures ParseChain(t, b, index) == Ok(Chain(es, rest))
       <==> && (forall e <- es :: WellFormedExtension(e))
            && t == FirstType(es, 0)
            && b == PrintLinks(es, 0, rest)
    decreases |b| + |es|
  {
    var parsed := ParseChain(t, b, index);
    if parsed == Ok(Chain(es, rest)) {
      ChainSound(t, b, index);
    }
    if (forall e <- es :: WellFormedExtension(e)) && t == FirstType(es, 0) && b == PrintLinks(es, 0, rest) {
      ChainComplete(es, 0, rest, index);
      assert es + [] == es;
    }
  }

  /** An element that cannot be read: announced by a non-zero type byte, but cut short. */
  predicate Broken(rest: Bytes, index: nat, e: ParseError) {
    if |rest| < 2 then e == MissingExtension(index)
    else rest[1] > |rest| - 2 && e == IncompleteExtension(index, rest[1], |rest| - 2)
  }

  /** `b` is a list of well-formed extensions `es` leading to a broken element `rest` of type `last`. */
  ghost predicate BrokenAfter(t: u8, b: Bytes, index: nat, e: ParseError,
                              es: seq<Extension>, last: u8, rest: Bytes)
  {
    && (forall x <- es :: WellFormedExtension(x))
    && last != 0 && t == FirstType(es, last)
    && b == PrintLinks(es, last, rest)
    && Broken(rest, index + |es|, e)
  }

  lemma PrependLink(t: u8, b: Bytes, index: nat, e: ParseError,
                    es: seq<Extension>, last: u8, rest: Bytes)
    requires t != 0 && |b| >= 2 && b[1] <= |b| - 2
    requires BrokenAfter(b[0], b[2 + b[1]..], index + 1, e, es, last, rest)
    ensures BrokenAfter(t, b, index, e,
                        [Extension(ExtensionTypeFromByte(t), b[2..2 + b[1]])] + es, last, rest)
  {
    var x := Extension(ExtensionTypeFromByte(t), b[2..2 + b[1]]);
    var xs := [x] + es;
    assert xs[1..] == es && xs[0] == x;
    assert b == [b[0], b[1]] + b[2..2 + b[1]] + b[2 + b[1]..];
  }

  lemma {:induction false} FirstBroken(t: u8, b: Bytes, index: nat)
    requires ParseChain(t, b, index).Err?
    ensures exists es, last, rest ::
              BrokenAfter(t, b, index, ParseChain(t, b, index).error, es, last, rest)
    decreases |b|
  {
    var e := ParseChain(t, b, index).error;
    if |b| < 2 || b[1] > |b| - 2 {
      assert BrokenAfter(t, b, index, e, [], t, b);
    } else {
      var tail := b[2 + b[1]..];
      FirstBroken(b[0], tail, index + 1);
      var es, last, rest :| BrokenAfter(b[0], tail, index + 1, e, es, last, rest);
      PrependLink(t, b, index, e, es, last, rest);
    }
  }

  /** A chain is refused exactly when some number of well-formed extensions is followed by an
      announced element that is cut short; the error names that element by its index. */
  lemma {:induction false} ChainRejects(t: u8, b: Bytes, index: nat, e: ParseError)
    ensures ParseChain(t, b, index) == Err(e)
       <==> exists es, last, rest :: BrokenAfter(t, b, index, e, es, last, rest)
  {
    if ParseChain(t, b, index) == Err(e) {
      FirstBroken(t, b, index);
    }
    forall es, last, rest | BrokenAfter(t, b, index, e, es, last, rest)
      ensures ParseChain(t, b, index) == Err(e)
    {
      ChainComplete(es, last, rest, index);
    }
  }

  // ---------------------------------------------------------------------------------------
  // Round trips
  // ---------------------------------------------------------------------------------------

  lemma {:induction false} OrZero(a: nat, k: nat)
    requires a < Pow2(k)
    ensures OrBits(a, 0, k) == a
  {
    if k > 0 {
      OrZero(a / 2, k - 1);
    }
  }

  lemma OrOne(a: nat, k: nat)
    requires a < Pow2(k)
    ensures OrBits(2 * a, 1, k + 1) == 2 * a + 1
  {
    OrZero(a, k);
  }

  lemma TypeAndVersionByte(t: PacketType)
    ensures Or8(PacketTypeToByte(t) * 16, 1) == PacketTypeToByte(t) * 16 + 1
  {
    var a: nat := PacketTypeToByte(t);
    assert Pow2(7) == 128;
    OrOne(8 * a, 7);
  }

  lemma HeaderFields(p: Packet, tail: Bytes)
    ensures var b := PrintHeader(p) + tail;
            && b[2..4] == PutU16(p.connectionId)
            && b[4..8] == PutU32(p.timestampMicros)
            && b[8..12] == PutU32(p.timestampDeltaMicros)
            && b[12..16] == PutU32(p.windowSize)
            && b[16..18] == PutU16(p.seqNumber)
            && b[18..20] == PutU16(p.ackNumber)
            && b[20..] == tail
  {
  }

  lemma GetPutU16(x: u16, b: Bytes)
    requires |b| >= 2 && b[..2] == PutU16(x)
    ensures GetU16(b) == x
  {
    assert b[0] == b[..2][0] && b[1] == b[..2][1];
  }

  lemma GetPutU32(x: u32, b: Bytes)
    requires |b| >= 4 && b[..4] == PutU32(x)
    ensures GetU32(b) == x
  {
    assert b[..2] == b[..4][..2] == PutU16(x / 0x1_0000);
    assert b[2..][..2] == b[..4][2..] == PutU16(x % 0x1_0000);
    GetPutU16(x / 0x1_0000, b);
    GetPutU16(x % 0x1_0000, b[2..]);
  }

  /** The fields of the header, read where the printer puts them. */
  ghost predicate Reads(b: Bytes, p: Packet) {
    && |b| >= PACKET_HEADER_LEN
    && b[0] == PacketTypeToByte(p.packetType) * 16 + 1
    && GetU16(b[2..]) == p.connectionId
    && GetU32(b[4..]) == p.timestampMicros
    && GetU32(b[8..]) == p.timestampDeltaMicros
    && GetU32(b[12..]) == p.windowSize
    && GetU16(b[16..]) == p.seqNumber
    && GetU16(b[18..]) == p.ackNumber
  }

  lemma FieldsRead(b: Bytes, p: Packet)
    requires |b| >= PACKET_HEADER_LEN
    requires b[2..4] == PutU16(p.connectionId) && b[16..18] == PutU16(p.seqNumber) && b[18..20] == PutU16(p.ackNumber)
    requires b[4..8] == PutU32(p.timestampMicros) && b[8..12] == PutU32(p.timestampDeltaMicros)
    requires b[12..16] == PutU32(p.windowSize)
    ensures GetU16(b[2..]) == p.connectionId && GetU16(b[16..]) == p.seqNumber && GetU16(b[18..]) == p.ackNumber
    ensures GetU32(b[4..]) == p.timestampMicros && GetU32(b[8..]) == p.timestampDeltaMicros
    ensures GetU32(b[12..]) == p.windowSize
  {
    assert b[2..][..2] == b[2..4] && b[16..][..2] == b[16..18] && b[18..][..2] == b[18..20];
    assert b[4..][..4] == b[4..8] && b[8..][..4] == b[8..12] && b[12..][..4] == b[12..16];
    GetPutU16(p.connectionId, b[2..]);
    GetPutU32(p.timestampMicros, b[4..]);
    GetPutU32(p.timestampDeltaMicros, b[8..]);
    GetPutU32(p.windowSize, b[12..]);
    GetPutU16(p.seqNumber, b[16..]);
    GetPutU16(p.ackNumber, b[18..]);
  }

  lemma PrintReads(p: Packet)
    requires p.version == 1
    ensures Reads(Print(p), p)
  {
    var b := Print(p);
    TypeAndVersionByte(p.packetType);
    assert b[0] == PrintHeader(p)[0];
    HeaderFields(p, PrintLinks(p.extensions, 0, p.data));
    FieldsRead(b, p);
  }

  lemma ParseFromFields(b: Bytes, p: Packet)
    requires Reads(b, p) && p.version == 1
    requires ParseChain(b[1], b[PACKET_HEADER_LEN..], 0) == Ok(Chain(p.extensions, p.data))
    ensures ParsePacket(b) == Ok(p)
  {
    assert PacketTypeFromByte(PacketTypeToByte(p.packetType)) == Ok(p.packetType);
    assert b[0] / 16 == PacketTypeToByte(p.packetType) && b[0] % 16 == 1;
  }

  lemma ParsePrintWellFormed(p: Packet)
    requires WellFormedPacket(p)
    ensures ParsePacket(Print(p)) == Ok(p)
  {
    var tail := PrintLinks(p.extensions, 0, p.data);
    PrintReads(p);
    assert Print(p)[PACKET_HEADER_LEN..] == tail && Print(p)[1] == FirstType(p.extensions, 0);
    ChainAccepts(FirstType(p.extensions, 0), tail, 0, p.extensions, p.data);
    ParseFromFields(Print(p), p);
  }

  /** The parser only ever produces well-formed packets. */
  lemma ParsedIsWellFormed(b: Bytes)
    requires ParsePacket(b).Ok?
    ensures WellFormedPacket(ParsePacket(b).value)
  {
    ChainSound(b[1], b[PACKET_HEADER_LEN..], 0);
  }

  /** Parsing undoes printing for exactly the well-formed packets. */
  lemma ParseUndoesPrint(p: Packet)
    ensures ParsePacket(Print(p)) == Ok(p) <==> WellFormedPacket(p)
  {
    if WellFormedPacket(p) {
      ParsePrintWellFormed(p);
    }
    if ParsePacket(Print(p)) == Ok(p) {
      ParsedIsWellFormed(Print(p));
    }
  }

  lemma HeaderSplit(b: Bytes)
    requires |b| >= PACKET_HEADER_LEN
    ensures b[..20] == [b[0]] + [b[1]] + b[2..4] + b[4..8] + b[8..12] + b[12..16] + b[16..18] + b[18..20]
  {
  }

  lemma HeaderFromFields(p: Packet, b: Bytes)
    requires |b| >= PACKET_HEADER_LEN
    requires b[0] == Or8(PacketTypeToByte(p.packetType) * 16, p.version)
    requires b[1] == FirstType(p.extensions, 0)
    requires p.connectionId == GetU16(b[2..]) && p.seqNumber == GetU16(b[16..]) && p.ackNumber == GetU16(b[18..])
    requires p.timestampMicros == GetU32(b[4..]) && p.timestampDeltaMicros == GetU32(b[8..])
    requires p.windowSize == GetU32(b[12..])
    ensures PrintHeader(p) == b[..20]
  {
    assert b[2..][..2] == b[2..4] && b[16..][..2] == b[16..18] && b[18..][..2] == b[18..20];
    assert b[4..][..4] == b[4..8] && b[8..][..4] == b[8..12] && b[12..][..4] == b[12..16];
    HeaderSplit(b);
  }

  /** Printing undoes parsing on every accepted datagram. */
  lemma PrintUndoesParse(b: Bytes)
    requires ParsePacket(b).Ok?
    ensures Print(ParsePacket(b).value) == b
  {
    var p := ParsePacket(b).value;
    ChainSound(b[1], b[PACKET_HEADER_LEN..], 0);
    TypeAndVersionByte(p.packetType);
    HeaderFromFields(p, b);
    assert b == b[..20] + b[20..];
  }

  /** The parser accepts exactly the printed forms of well-formed packets. */
  lemma AcceptedAreThePrinted(b: Bytes)
    ensures ParsePacket(b).Ok? <==> exists p :: WellFormedPacket(p) && b == Print(p)
  {
    if ParsePacket(b).Ok? {
      ParsedIsWellFormed(b);
      PrintUndoesParse(b);
    }
    forall p | WellFormedPacket(p) && b == Print(p)
      ensures ParsePacket(b).Ok?
    {
      ParsePrintWellFormed(p);
    }
  }

  /** No two accepted datagrams stand for the same packet. */
  lemma ParserInjective(b: Bytes, c: Bytes)
    requires ParsePacket(b).Ok? && ParsePacket(b) == ParsePacket(c)
    ensures b == c
  {
    PrintUndoesParse(b);
    PrintUndoesParse(c);
  }
}
