/** The µTP packet of BEP 29 (sections "header format" and "extension"), as the program represents it. */
module Packets {
  import opened Words

  const PACKET_HEADER_LEN := 20
  const MAX_DATAGRAM_SIZE := 1472
  const MAX_DATA_SEGMENT_SIZE := MAX_DATAGRAM_SIZE - PACKET_HEADER_LEN

  datatype SocketAddr = SocketAddr(ip: Bytes, port: u16)

  datatype PacketType = Data | Fin | State | Reset | Syn

  datatype ExtensionType = NoExtension | SelectiveAck | Bitfield | CloseReason | Unknown(n: u8)

  datatype Extension = Extension(extensionType: ExtensionType, data: Bytes)

  datatype Packet = Packet(
    packetType: PacketType,
    version: u8,
    connectionId: u16,
    timestampMicros: u32,
    timestampDeltaMicros: u32,
    windowSize: u32,
    seqNumber: u16,
    ackNumber: u16,
    extensions: seq<Extension>,
    data: Bytes)

  datatype ParseError =
    | TooSmall
    | UnsupportedVersion(version: u8)
    | InvalidPacketType(number: u8)
    | MissingExtension(index: nat)
    | IncompleteExtension(index: nat, length: nat, remaining: nat)

  function PacketTypeToByte(t: PacketType): u8 {
    match t
    case Data => 0
    case Fin => 1
    case State => 2
    case Reset => 3
    case Syn => 4
  }

  function PacketTypeFromByte(value: u8): Result<PacketType, ParseError> {
    match value
    case 0 => Ok(Data)
    case 1 => Ok(Fin)
    case 2 => Ok(State)
    case 3 => Ok(Reset)
    case 4 => Ok(Syn)
    case n => Err(InvalidPacketType(n))
  }

  function ExtensionTypeFromByte(num: u8): ExtensionType {
    match num
    case 0 => NoExtension
    case 1 => SelectiveAck
    case 2 => Bitfield
    case 3 => CloseReason
    case n => Unknown(n)
  }

  function ExtensionTypeToByte(t: ExtensionType): u8 {
    match t
    case NoExtension => 0
    case SelectiveAck => 1
    case Bitfield => 2
    case CloseReason => 3
    case Unknown(n) => n
  }

  /** An extension that survives a trip over the wire: a type that has one name only and is
      not the end marker, and a length that fits its length byte. */
  predicate WellFormedExtension(e: Extension) {
    && e.extensionType != NoExtension
    && (e.extensionType.Unknown? ==> e.extensionType.n >= 4)
    && |e.data| <= 255
  }

  predicate WellFormedPacket(p: Packet) {
    && p.version == 1
    && forall e <- p.extensions :: WellFormedExtension(e)
  }
}
