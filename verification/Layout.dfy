/** Where everything stands in a datagram, byte by byte, in the terms of BEP 29 (sections "header format"
    and "extension"): an account of the wire format that does not go through the printer or the parser. */
module Layout {
  import opened Words
  import opened Packets
  import opened Codec

  /** The number that a byte string stands for, most significant byte first. */
  function Value(b: Bytes): nat {
    if b == [] then 0 else Value(b[..|b| - 1]) * 0x100 + b[|b| - 1]
  }

  /** The first byte: type and version 1. */
  function FirstByte(t: PacketType): u8 {
    match t
    case Data => 0x01
    case Fin => 0x11
    case State => 0x21
    case Reset => 0x31
    case Syn => 0x41
  }

  /** The byte that announces an extension. */
  function ExtensionByte(t: ExtensionType): u8 {
    match t
    case NoExtension => 0
    case SelectiveAck => 1
    case Bitfield => 2
    case CloseReason => 3
    case Unknown(n) => n
  }

  predicate HeaderLaidOut(b: Bytes, p: Packet) {
    && |b| >= 20
    && b[0] == FirstByte(p.packetType)
    && b[1] == (if p.extensions == [] then 0 else ExtensionByte(p.extensions[0].extensionType))
    && Value(b[2..4]) == p.connectionId
    && Value(b[4..8]) == p.timestampMicros
    && Value(b[8..12]) == p.timestampDeltaMicros
    && Value(b[12..16]) == p.windowSize
    && Value(b[16..18]) == p.seqNumber
    && Value(b[18..20]) == p.ackNumber
  }

  /** Where the `k`-th extension starts, and for `k == |es|` the payload. */
  function LinkStart(es: seq<Extension>, k: nat): nat
    requires k <= |es|
  {
    if k == 0 then 20 else LinkStart(es, k - 1) + 2 + |es[k - 1].data|
  }

  /** The `k`-th extension: the type of the next one or 0, its length, its data. */
  predicate LinkLaidOut(b: Bytes, es: seq<Extension>, k: nat)
    requires k < |es|
  {
    var start, length := LinkStart(es, k), |es[k].data|;
    && start + 2 + length <= |b|
    && b[start] == (if k + 1 < |es| then ExtensionByte(es[k + 1].extensionType) else 0)
    && b[start + 1] == length
    && b[start + 2..start + 2 + length] == es[k].data
  }

  ghost predicate LaidOut(b: Bytes, p: Packet) {
    && HeaderLaidOut(b, p)
    && (forall k | 0 <= k < |p.extensions| :: LinkLaidOut(b, p.extensions, k))
    && LinkStart(p.extensions, |p.extensions|) <= |b|
    && b[LinkStart(p.extensions, |p.extensions|)..] == p.data
  }

  // ---------------------------------------------------------------------------------------
  // Numbers
  // ---------------------------------------------------------------------------------------

  lemma ValueTwo(b: Bytes)
    requires |b| == 2
    ensures var hi: int, lo: int := b[0], b[1]; Value(b) == hi * 0x100 + lo
  {
    assert b[..1][..0] == [];
    assert Value(b[..1]) == b[0];
  }

  lemma ValueFour(b: Bytes)
    requires |b| == 4
    ensures Value(b) == Value(b[..2]) * 0x1_0000 + Value(b[2..])
  {
    assert b[..3][..2] == b[..2];
    ValueTwo(b[2..]);
    assert Value(b[..3]) == Value(b[..2]) * 0x100 + b[2];
  }

  lemma PutIsValue16(x: u16, b: Bytes)
    requires |b| == 2
    ensures b == PutU16(x) <==> Value(b) == x
  {
    ValueTwo(b);
  }

  lemma PutIsValue32(x: u32, b: Bytes)
    requires |b| == 4
    ensures b == PutU32(x) <==> Value(b) == x
  {
    ValueFour(b);
    PutIsValue16(x / 0x1_0000, b[..2]);
    PutIsValue16(x % 0x1_0000, b[2..]);
    ValueTwo(b[..2]);
    ValueTwo(b[2..]);
    assert b == b[..2] + b[2..];
    assert PutU32(x)[..2] == PutU16(x / 0x1_0000) && PutU32(x)[2..] == PutU16(x % 0x1_0000);
  }

  lemma TypeBytes(t: PacketType, e: ExtensionType)
    ensures FirstByte(t) == PacketTypeToByte(t) * 16 + 1 && ExtensionByte(e) == ExtensionTypeToByte(e)
  {
  }

  // ---------------------------------------------------------------------------------------
  // The header
  // ---------------------------------------------------------------------------------------

  lemma HeaderSame(b: Bytes, c: Bytes)
    requires |b| >= 20 && |c| == 20
    requires b[0] == c[0] && b[1] == c[1] && b[2..4] == c[2..4] && b[4..8] == c[4..8] && b[8..12] == c[8..12]
    requires b[12..16] == c[12..16] && b[16..18] == c[16..18] && b[18..20] == c[18..20]
    ensures b[..20] == c
  {
    HeaderSplit(b);
    HeaderSplit(c);
    assert c[..20] == c;
  }

  lemma HeaderParts(b: Bytes, h: Bytes)
    requires |b| >= 20 && b[..20] == h
    ensures b[0] == h[0] && b[1] == h[1] && b[2..4] == h[2..4] && b[4..8] == h[4..8] && b[8..12] == h[8..12]
    ensures b[12..16] == h[12..16] && b[16..18] == h[16..18] && b[18..20] == h[18..20]
  {
  }

  /** The header is laid out if and only if it is the printed one. */
  lemma HeaderExact(b: Bytes, p: Packet)
    requires |b| >= 20 && p.version == 1
    ensures HeaderLaidOut(b, p) <==> b[..20] == PrintHeader(p)
  {
    var h := PrintHeader(p);
    TypeAndVersionByte(p.packetType);
    TypeBytes(p.packetType, if p.extensions == [] then NoExtension else p.extensions[0].extensionType);
    HeaderFields(p, []);
    assert h + [] == h;
    PutIsValue16(p.connectionId, b[2..4]);
    PutIsValue32(p.timestampMicros, b[4..8]);
    PutIsValue32(p.timestampDeltaMicros, b[8..12]);
    PutIsValue32(p.windowSize, b[12..16]);
    PutIsValue16(p.seqNumber, b[16..18]);
    PutIsValue16(p.ackNumber, b[18..20]);
    if HeaderLaidOut(b, p) {
      HeaderSame(b, h);
    }
    if b[..20] == h {
      HeaderParts(b, h);
    }
  }

  // ---------------------------------------------------------------------------------------
  // The extensions
  // ---------------------------------------------------------------------------------------

  /** From the `k`-th extension on, `b` is the printed list. */
  predicate LinksFrom(b: Bytes, es: seq<Extension>, data: Bytes, k: nat)
    requires k <= |es|
  {
    LinkStart(es, k) <= |b| && b[LinkStart(es, k)..] == PrintLinks(es[k..], 0, data)
  }

  lemma NextType(es: seq<Extension>, k: nat)
    requires k < |es|
    ensures FirstType(es[k + 1..], 0) == if k + 1 < |es| then ExtensionByte(es[k + 1].extensionType) else 0
  {
  }

  /** One link: `tail` starts with it, and then goes on with `rest`. */
  lemma LinkSplit(tail: Bytes, next: u8, data: Bytes, rest: Bytes)
    requires |data| <= 255
    ensures tail == [next, |data|] + data + rest
       <==> && |tail| >= 2 + |data| && tail[0] == next && tail[1] == |data|
            && tail[2..2 + |data|] == data && tail[2 + |data|..] == rest
  {
    if |tail| >= 2 + |data| && tail[0] == next && tail[1] == |data|
       && tail[2..2 + |data|] == data && tail[2 + |data|..] == rest {
      assert tail == [tail[0], tail[1]] + tail[2..2 + |data|] + tail[2 + |data|..];
    }
  }

  lemma Shift(b: Bytes, start: nat, length: nat)
    requires start + 2 + length <= |b|
    ensures b[start..][0] == b[start] && b[start..][1] == b[start + 1]
    ensures b[start..][2..2 + length] == b[start + 2..start + 2 + length]
    ensures b[start..][2 + length..] == b[start + 2 + length..]
  {
  }

  /** The list goes on from one extension to the next exactly if that one is laid out. */
  lemma LinkExact(b: Bytes, es: seq<Extension>, data: Bytes, k: nat)
    requires k < |es| && |es[k].data| <= 255
    ensures LinksFrom(b, es, data, k) <==> LinkLaidOut(b, es, k) && LinksFrom(b, es, data, k + 1)
  {
    var start, length := LinkStart(es, k), |es[k].data|;
    NextType(es, k);
    assert es[k..][0] == es[k] && es[k..][1..] == es[k + 1..];
    if start <= |b| {
      LinkSplit(b[start..], FirstType(es[k + 1..], 0), es[k].data, PrintLinks(es[k + 1..], 0, data));
      if start + 2 + length <= |b| {
        Shift(b, start, length);
      }
    }
  }

  lemma {:induction false} LinksExact(b: Bytes, es: seq<Extension>, data: Bytes, k: nat)
    requires k <= |es| && forall e <- es :: WellFormedExtension(e)
    ensures LinksFrom(b, es, data, k)
       <==> (forall i | k <= i < |es| :: LinkLaidOut(b, es, i)) && LinksFrom(b, es, data, |es|)
    decreases |es| - k
  {
    if k < |es| {
      assert es[k] in es;
      LinkExact(b, es, data, k);
      LinksExact(b, es, data, k + 1);
    }
  }

  // ---------------------------------------------------------------------------------------
  // Datagrams
  // ---------------------------------------------------------------------------------------

  lemma PrintedIsLaidOut(b: Bytes, p: Packet)
    requires WellFormedPacket(p)
    ensures b == Print(p) <==> LaidOut(b, p)
  {
    var es := p.extensions;
    LinksExact(b, es, p.data, 0);
    assert es[0..] == es && es[|es|..] == [];
    if |b| >= 20 {
      HeaderExact(b, p);
      assert b == b[..20] + b[20..];
    }
    assert Print(p)[..20] == PrintHeader(p) && Print(p)[20..] == PrintLinks(es, 0, p.data);
  }

  /** The wire format, exactly: a datagram is accepted as a given packet if and only if the packet is
      well-formed and the datagram is laid out for it, every number with its most significant byte
      first. */
  lemma LayoutExact(b: Bytes, p: Packet)
    ensures ParsePacket(b) == Ok(p) <==> WellFormedPacket(p) && LaidOut(b, p)
  {
    if ParsePacket(b) == Ok(p) {
      ParsedIsWellFormed(b);
      PrintUndoesParse(b);
      PrintedIsLaidOut(b, p);
    }
    if WellFormedPacket(p) && LaidOut(b, p) {
      PrintedIsLaidOut(b, p);
      ParseUndoesPrint(p);
    }
  }

  /** So every well-formed packet is printed in this layout. */
  lemma PrintLayout(p: Packet)
    requires WellFormedPacket(p)
    ensures LaidOut(Print(p), p)
  {
    PrintedIsLaidOut(Print(p), p);
  }

  /** No extension gives one of these. */
  lemma {:induction false} ChainErrors(t: u8, b: Bytes, index: nat)
    ensures var r := ParseChain(t, b, index);
            r.Err? ==> r.error.MissingExtension? || r.error.IncompleteExtension?
    decreases |b|
  {
    if t != 0 && |b| >= 2 && b[1] <= |b| - 2 {
      ChainErrors(b[0], b[2 + b[1]..], index + 1);
    }
  }

  /** Which error a bad header gives: length first, then the type, then the version. */
  lemma HeaderErrors(b: Bytes, n: u8)
    ensures ParsePacket(b) == Err(TooSmall) <==> |b| < 20
    ensures ParsePacket(b) == Err(InvalidPacketType(n)) <==> |b| >= 20 && 5 <= n == b[0] / 16
    ensures ParsePacket(b) == Err(UnsupportedVersion(n)) <==> |b| >= 20 && b[0] / 16 <= 4 && 1 != n == b[0] % 16
  {
    if |b| >= 20 {
      ChainErrors(b[1], b[PACKET_HEADER_LEN..], 0);
    }
  }
}
