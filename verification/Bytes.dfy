/** The byte layout of packets (src/connection/PacketHeader.cpp, src/channel/MessageHeader.cpp,
    src/channel/ChannelManager.cpp:163-192).  sf::Packet writes integers big-endian. */
module Bytes {
  import opened SequenceNumbers
  import opened PacketAcks

  type Byte = x: int | 0 <= x < 256

  type Payload = seq<Byte>

  const MAX_PACKET_SIZE_BYTES := 1350
  const PACKET_HEADER_SIZE_BYTES := 9
  const MESSAGE_HEADER_SIZE_BYTES := 5
  const MAX_MESSAGE_SIZE_BYTES := MAX_PACKET_SIZE_BYTES - PACKET_HEADER_SIZE_BYTES - MESSAGE_HEADER_SIZE_BYTES

  const RELIABLE_CHANNEL_ID: Byte := 1
  const UNRELIABLE_CHANNEL_ID: Byte := 2

  /** InternalPacketType */
  const CONNECT_REQUEST: Byte := 1
  const CONNECT_ACCEPT: Byte := 2
  const DISCONNECT: Byte := 3
  const HEARTBEAT: Byte := 4
  const USER_PACKET: Byte := 5

  datatype PacketHeader = PacketHeader(kind: Byte, sequenceNum: SequenceNumber, ack: SequenceNumber, ackBits: AckBits)

  datatype MessageHeader = MessageHeader(sequenceNum: SequenceNumber, messageSize: SequenceNumber, channelId: Byte)

  /** A message as a packet carries it. */
  datatype Entry = Entry(sequenceNum: SequenceNumber, channelId: Byte, payload: Payload)

  datatype Option<+T> = None | Some(value: T)

  // ---------------------------------------------------------------------------------------------
  // Integers

  function PutUint16(v: SequenceNumber): seq<Byte> {
    [v / 256, v % 256]
  }

  function GetUint16(data: seq<Byte>, at: nat): SequenceNumber
    requires at + 2 <= |data|
  {
    (data[at] as int) * 256 + data[at + 1]
  }

  function PutUint32(v: AckBits): seq<Byte> {
    PutUint16(v / 65536) + PutUint16(v % 65536)
  }

  function GetUint32(data: seq<Byte>, at: nat): AckBits
    requires at + 4 <= |data|
  {
    GetUint16(data, at) * 65536 + GetUint16(data, at + 2)
  }

  /** `part` stands at position `at` of `data`. */
  predicate StandsAt(data: seq<Byte>, at: nat, part: seq<Byte>) {
    at + |part| <= |data| && data[at..at + |part|] == part
  }

  // ---------------------------------------------------------------------------------------------
  // Headers

  function PutPacketHeader(h: PacketHeader): seq<Byte> {
    [h.kind] + PutUint16(h.sequenceNum) + PutUint16(h.ack) + PutUint32(h.ackBits)
  }

  function GetPacketHeader(data: seq<Byte>): PacketHeader
    requires |data| >= PACKET_HEADER_SIZE_BYTES
  {
    PacketHeader(data[0], GetUint16(data, 1), GetUint16(data, 3), GetUint32(data, 5))
  }

  lemma PacketHeaderRoundTrip(h: PacketHeader, body: seq<Byte>)
    ensures |PutPacketHeader(h)| == PACKET_HEADER_SIZE_BYTES
    ensures GetPacketHeader(PutPacketHeader(h) + body) == h
  {
  }

  function PutMessageHeader(h: MessageHeader): seq<Byte> {
    PutUint16(h.sequenceNum) + PutUint16(h.messageSize) + [h.channelId]
  }

  function GetMessageHeader(data: seq<Byte>, at: nat): MessageHeader
    requires at + MESSAGE_HEADER_SIZE_BYTES <= |data|
  {
    MessageHeader(GetUint16(data, at), GetUint16(data, at + 2), data[at + 4])
  }

  lemma MessageHeaderRoundTrip(data: seq<Byte>, at: nat, h: MessageHeader)
    requires StandsAt(data, at, PutMessageHeader(h))
    ensures GetMessageHeader(data, at) == h
  {
  }

  // ---------------------------------------------------------------------------------------------
  // Messages

  /** The largest message a Peer accepts; its size fits the 16-bit field. */
  predicate Encodable(e: Entry) {
    |e.payload| <= MAX_MESSAGE_SIZE_BYTES
  }

  /** The constructor's size parameter is 16 bits wide, so a size is cut to 16 bits. */
  function HeaderFor(sequenceNum: SequenceNumber, size: nat, channelId: Byte): MessageHeader {
    MessageHeader(sequenceNum, size % 65536, channelId)
  }

  function PutEntry(e: Entry): (bytes: seq<Byte>)
    ensures |bytes| == MESSAGE_HEADER_SIZE_BYTES + |e.payload|
  {
    PutMessageHeader(HeaderFor(e.sequenceNum, |e.payload|, e.channelId)) + e.payload
  }

  /** The nine bytes of a packet header, most significant first. */
  lemma PacketHeaderBytes(h: PacketHeader)
    ensures var b := PutPacketHeader(h);
            && |b| == 9 && b[0] == h.kind
            && (b[1] as int) * 256 + b[2] == h.sequenceNum
            && (b[3] as int) * 256 + b[4] == h.ack
            && (b[5] as int) * 0x100_0000 + (b[6] as int) * 0x1_0000 + (b[7] as int) * 256 + b[8] == h.ackBits
  {
    var high, low := h.ackBits / 65536, h.ackBits % 65536;
    assert high * 65536 == (high / 256 * 256 + high % 256) * 65536;
  }

  /** The five bytes in front of a message, then its payload. */
  lemma EntryBytes(e: Entry)
    requires Encodable(e)
    ensures var b := PutEntry(e);
            && |b| == 5 + |e.payload|
            && (b[0] as int) * 256 + b[1] == e.sequenceNum
            && (b[2] as int) * 256 + b[3] == |e.payload|
            && b[4] == e.channelId && b[5..] == e.payload
  {
  }

  function PutEntries(entries: seq<Entry>): seq<Byte> {
    if entries == [] then [] else PutEntry(entries[0]) + PutEntries(entries[1..])
  }

  /** The messages the reading loop finds from `at` on; None if it would read past the end, which the
      C++ code does not check for. */
  function GetEntries(data: seq<Byte>, at: nat): Option<seq<Entry>>
    decreases |data| - at
  {
    if at >= |data| then Some([])
    else if at + MESSAGE_HEADER_SIZE_BYTES > |data| then None
    else
      var h := GetMessageHeader(data, at);
      var from := at + MESSAGE_HEADER_SIZE_BYTES;
      if from + h.messageSize > |data| then None
      else
        var rest := GetEntries(data, from + h.messageSize);
        if rest.None? then None
        else Some([Entry(h.sequenceNum, h.channelId, data[from..from + h.messageSize])] + rest.value)
  }

  lemma EntryRoundTrip(data: seq<Byte>, at: nat, e: Entry, rest: seq<Byte>)
    requires Encodable(e)
    requires at <= |data| && data[at..] == PutEntry(e) + rest
    ensures var from := at + MESSAGE_HEADER_SIZE_BYTES;
            && from + |e.payload| <= |data|
            && GetMessageHeader(data, at) == MessageHeader(e.sequenceNum, |e.payload|, e.channelId)
            && data[from..from + |e.payload|] == e.payload
            && data[from + |e.payload|..] == rest
  {
  }

  lemma {:induction false} EntriesRoundTrip(data: seq<Byte>, at: nat, entries: seq<Entry>)
    requires forall e | e in entries :: Encodable(e)
    requires at <= |data| && data[at..] == PutEntries(entries)
    ensures GetEntries(data, at) == Some(entries)
    decreases |entries|
  {
    if entries == [] {
      assert |data[at..]| == 0;
    } else {
      var e := entries[0];
      EntryRoundTrip(data, at, e, PutEntries(entries[1..]));
      EntriesRoundTrip(data, at + MESSAGE_HEADER_SIZE_BYTES + |e.payload|, entries[1..]);
      assert entries == [e] + entries[1..];
    }
  }

  /** A whole user packet. */
  function PutPacket(h: PacketHeader, entries: seq<Entry>): seq<Byte> {
    PutPacketHeader(h) + PutEntries(entries)
  }

  /** Reading a packet gives back its header and its messages, in order. */
  lemma PacketRoundTrip(h: PacketHeader, entries: seq<Entry>)
    requires forall e | e in entries :: Encodable(e)
    ensures var data := PutPacket(h, entries);
            && |data| >= PACKET_HEADER_SIZE_BYTES
            && GetPacketHeader(data) == h
            && GetEntries(data, PACKET_HEADER_SIZE_BYTES) == Some(entries)
  {
    var data := PutPacket(h, entries);
    PacketHeaderRoundTrip(h, PutEntries(entries));
    assert data[9..] == PutEntries(entries);
    EntriesRoundTrip(data, 9, entries);
  }

  lemma {:induction false} PutEntriesAppend(a: seq<Entry>, b: seq<Entry>)
    ensures PutEntries(a + b) == PutEntries(a) + PutEntries(b)
  {
    if a == [] {
      assert a + b == b;
    } else {
      assert (a + b)[0] == a[0] && (a + b)[1..] == a[1..] + b;
      PutEntriesAppend(a[1..], b);
    }
  }

  lemma PutEntriesGrow(entries: seq<Entry>, e: Entry)
    ensures PutEntries(entries + [e]) == PutEntries(entries) + PutEntry(e)
  {
    PutEntriesAppend(entries, [e]);
    assert [e][1..] == [];
  }
}
