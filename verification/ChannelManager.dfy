/** The stateful channels (src/channel/Peer.hpp, src/channel/Peer.cpp, src/channel/ChannelManager.hpp,
    src/channel/ChannelManager.cpp). */
module ChannelManagers {
  import opened SequenceNumbers
  import opened Bytes
  import opened Packing
  import opened Channels
  import OrderedChannel

  /** The first `i` messages of `q` have been looked at: what the queue and the packet are then. */
  ghost predicate WrittenTo(q: seq<ReliableMessage>, i: nat, data: seq<Byte>, packet: SequenceNumber, c: Clock,
                            queue: seq<ReliableMessage>, out: seq<Byte>)
  {
    && i <= |q| == |queue| && queue == StampUpTo(q, i, packet, c)
    && WalkReliable(q, 0, |data|, c) == WalkReliable(q, i, |out|, c)
    && out == data + PutEntries(DueEntries(q[..i], c))
  }

  lemma WriteOneMore(q: seq<ReliableMessage>, i: nat, data: seq<Byte>, packet: SequenceNumber, c: Clock,
                     queue: seq<ReliableMessage>, out: seq<Byte>)
    requires i < |q| && WrittenTo(q, i, data, packet, c, queue, out) && Fits(|q[i].message|, |out|)
    ensures queue[i] == q[i]
    ensures if Due(q[i], c)
            then WrittenTo(q, i + 1, data, packet, c,
                           queue[i := q[i].(sentTimeMs := c.now, packetSequenceNum := packet)], out + PutEntry(EntryOf(q[i])))
            else WrittenTo(q, i + 1, data, packet, c, queue, out)
  {
    StampOneMore(q, i, packet, c);
    BytesOneMore(q, i, data, c);
    WalkOneMore(q, i, |out|, c);
  }

  lemma BytesOneMore(q: seq<ReliableMessage>, i: nat, data: seq<Byte>, c: Clock)
    requires i < |q|
    ensures data + PutEntries(DueEntries(q[..i + 1], c))
         == data + PutEntries(DueEntries(q[..i], c)) + (if Due(q[i], c) then PutEntry(EntryOf(q[i])) else [])
  {
    DueEntriesGrow(q, i, c);
    if Due(q[i], c) {
      PutEntriesGrow(DueEntries(q[..i], c), EntryOf(q[i]));
    } else {
      assert DueEntries(q[..i + 1], c) == DueEntries(q[..i], c);
    }
  }

  lemma WalkOneMore(q: seq<ReliableMessage>, i: nat, used: nat, c: Clock)
    requires i < |q| && Fits(|q[i].message|, used)
    ensures WalkReliable(q, i, used, c) == WalkReliable(q, i + 1, if Due(q[i], c) then used + |PutEntry(EntryOf(q[i]))| else used, c)
  {
  }

  lemma WritingStops(q: seq<ReliableMessage>, i: nat, data: seq<Byte>, packet: SequenceNumber, c: Clock,
                     queue: seq<ReliableMessage>, out: seq<Byte>)
    requires WrittenTo(q, i, data, packet, c, queue, out)
    requires i < |q| ==> !Fits(|q[i].message|, |out|)
    ensures WalkReliable(q, 0, |data|, c) == Walk(i, |out|)
  {
  }

  /** What the loops leave and append is what the specified packet is. */
  lemma TwoLoopsWrite(st: PeerState, data: seq<Byte>, packet: SequenceNumber, c: Clock)
    ensures var walk := WalkReliable(st.reliable, 0, |data|, c);
            var written := st.(reliable := StampUpTo(st.reliable, walk.stop, packet, c));
            var out := data + PutEntries(DueEntries(st.reliable[..walk.stop], c));
            var n := TakeUnreliable(st.unreliable, walk.used);
            var w := WritePacket(st, |data|, packet, c);
            if walk.stop < |st.reliable| then w.st == written && data + PutEntries(w.entries) == out
            else
              && w.st == written.(hasReliable := false, unreliable := st.unreliable[n..])
              && data + PutEntries(w.entries) == out + PutEntries(UnreliableEntries(st.unreliable[..n]))
  {
    var walk := WalkReliable(st.reliable, 0, |data|, c);
    BytesAppend(data, DueEntries(st.reliable[..walk.stop], c),
                UnreliableEntries(st.unreliable[..TakeUnreliable(st.unreliable, walk.used)]));
  }

  lemma BytesAppend(data: seq<Byte>, a: seq<Entry>, b: seq<Entry>)
    ensures data + PutEntries(a + b) == data + PutEntries(a) + PutEntries(b)
  {
    PutEntriesAppend(a, b);
    assert data + (PutEntries(a) + PutEntries(b)) == (data + PutEntries(a)) + PutEntries(b);
  }

  lemma StampOneMore(q: seq<ReliableMessage>, i: nat, packet: SequenceNumber, c: Clock)
    requires i < |q|
    ensures var stamped := StampUpTo(q, i, packet, c);
            && |stamped| == |q| && stamped[i] == q[i]
            && StampUpTo(q, i + 1, packet, c)
               == if Due(q[i], c) then stamped[i := q[i].(sentTimeMs := c.now, packetSequenceNum := packet)] else stamped
  {
  }

  lemma UnreliableBytesGrow(data: seq<Byte>, u: seq<Payload>, n: nat)
    requires n < |u|
    ensures data + PutEntries(UnreliableEntries(u[..n + 1]))
         == data + PutEntries(UnreliableEntries(u[..n])) + PutEntry(Entry(0, UNRELIABLE_CHANNEL_ID, u[n]))
  {
    var e := Entry(0, UNRELIABLE_CHANNEL_ID, u[n]);
    assert UnreliableEntries(u[..n + 1]) == UnreliableEntries(u[..n]) + [e];
    PutEntriesGrow(UnreliableEntries(u[..n]), e);
  }

  /** `kept` is what stays of the first `i` messages. */
  ghost predicate KeptUpTo(q: seq<ReliableMessage>, acked: set<SequenceNumber>, i: nat, kept: seq<ReliableMessage>) {
    i <= |q| && kept + Unacked(q, acked, i) == Unacked(q, acked, 0)
  }

  lemma NoneKeptYet(q: seq<ReliableMessage>, acked: set<SequenceNumber>)
    ensures KeptUpTo(q, acked, 0, [])
  {
  }

  lemma KeepOneMore(q: seq<ReliableMessage>, acked: set<SequenceNumber>, i: nat, kept: seq<ReliableMessage>)
    requires i < |q| && KeptUpTo(q, acked, i, kept)
    ensures KeptUpTo(q, acked, i + 1, if q[i].packetSequenceNum in acked then kept else kept + [q[i]])
  {
    UnackedStep(q, acked, i);
    AppendInBetween(kept, q[i], Unacked(q, acked, i + 1));
  }

  lemma AppendInBetween(a: seq<ReliableMessage>, m: ReliableMessage, b: seq<ReliableMessage>)
    ensures a + ([m] + b) == (a + [m]) + b && a + ([] + b) == a + b
  {
    assert [] + b == b;
  }

  lemma AllKept(q: seq<ReliableMessage>, acked: set<SequenceNumber>, kept: seq<ReliableMessage>)
    requires KeptUpTo(q, acked, |q|, kept)
    ensures kept == Unacked(q, acked, 0)
  {
  }

  lemma OneReliableHanded(st: PeerState, handed: seq<Handed>)
    requires st.reliableToDeliver != []
    ensures handed + HandedBy(st)
         == handed + [Handed(st.reliableToDeliver[0], true)]
            + HandedBy(st.(reliableToDeliver := st.reliableToDeliver[1..]))
  {
    assert HandedBy(st) == [Handed(st.reliableToDeliver[0], true)] + HandedBy(st.(reliableToDeliver := st.reliableToDeliver[1..]));
  }

  lemma OneUnreliableHanded(st: PeerState, handed: seq<Handed>)
    requires st.reliableToDeliver == [] && st.unreliableToDeliver != []
    ensures handed + HandedBy(st)
         == handed + [Handed(st.unreliableToDeliver[0], false)]
            + HandedBy(st.(unreliableToDeliver := st.unreliableToDeliver[1..]))
  {
    assert HandedBy(st) == [Handed(st.unreliableToDeliver[0], false)] + HandedBy(st.(unreliableToDeliver := st.unreliableToDeliver[1..]));
  }

  class Peer {
    const peerId: ConnectionId
    var sequenceNumGenerator: SequenceNumber
    var sequenceNumberOfLastDelivered: SequenceNumber
    var hasReliableDataToSendInTheCurrentFrame: bool
    var reliableMessagesToSend: seq<ReliableMessage>
    var unreliableMessagesToSend: seq<Payload>
    var reliableMessagesToDeliver: seq<Payload>
    var unreliableMessagesToDeliver: seq<Payload>
    var messagesToStore: map<SequenceNumber, Payload>

    ghost function State(): PeerState
      reads this
    {
      PeerState(sequenceNumGenerator, sequenceNumberOfLastDelivered, hasReliableDataToSendInTheCurrentFrame,
                reliableMessagesToSend, unreliableMessagesToSend,
                reliableMessagesToDeliver, unreliableMessagesToDeliver, messagesToStore)
    }

    constructor (id: ConnectionId)
      ensures State() == NEW_PEER_STATE && peerId == id
    {
      peerId := id;
      sequenceNumGenerator, sequenceNumberOfLastDelivered := 0, MAX_SEQUENCE_NUMBER;
      hasReliableDataToSendInTheCurrentFrame := false;
      reliableMessagesToSend, unreliableMessagesToSend := [], [];
      reliableMessagesToDeliver, unreliableMessagesToDeliver := [], [];
      messagesToStore := map[];
    }

    method Send(message: Payload, isReliable: bool)
      modifies this
      ensures State() == Accept(old(State()), message, isReliable)
    {
      if isReliable {
        if |message| > MAX_MESSAGE_SIZE_BYTES { return; }
        hasReliableDataToSendInTheCurrentFrame := true;
        reliableMessagesToSend := reliableMessagesToSend + [ReliableMessage(message, 0, 0, sequenceNumGenerator)];
        sequenceNumGenerator := Wire(sequenceNumGenerator + 1);
      } else {
        if |message| > MAX_MESSAGE_SIZE_BYTES { return; }
        unreliableMessagesToSend := unreliableMessagesToSend + [message];
      }
    }

    method OnMessageReceived(header: MessageHeader, message: Payload)
      modifies this
      ensures State() == ReceiveEntry(old(State()), Entry(header.sequenceNum, header.channelId, message))
    {
      if header.channelId == UNRELIABLE_CHANNEL_ID {
        unreliableMessagesToDeliver := unreliableMessagesToDeliver + [message];
      } else if header.channelId == RELIABLE_CHANNEL_ID {
        if SequenceEqualOrGreaterThan(sequenceNumberOfLastDelivered, header.sequenceNum) { return; }
        if header.sequenceNum - sequenceNumberOfLastDelivered > 1 {
          if header.sequenceNum !in messagesToStore {
            messagesToStore := messagesToStore[header.sequenceNum := message];
          }
          return;
        }
        reliableMessagesToDeliver := reliableMessagesToDeliver + [message];
        sequenceNumberOfLastDelivered := header.sequenceNum;
        DeliverStored();
        EraseDelivered();
      }
    }

    /** The loop over the store; std::map is walked in ascending key order. */
    method DeliverStored()
      modifies this`reliableMessagesToDeliver, this`sequenceNumberOfLastDelivered
      ensures InboxOf(State()) == OrderedChannel.Drain(old(InboxOf(State())), 0)
    {
      for key := 0 to 65536
        invariant OrderedChannel.Drain(InboxOf(State()), key) == OrderedChannel.Drain(old(InboxOf(State())), 0)
      {
        if key in messagesToStore && key - sequenceNumberOfLastDelivered == 1 {
          reliableMessagesToDeliver := reliableMessagesToDeliver + [messagesToStore[key]];
          sequenceNumberOfLastDelivered := Wire(sequenceNumberOfLastDelivered + 1);
        }
      }
    }

    /** The loop that erases what is not above the last delivered number. */
    method EraseDelivered()
      modifies this`messagesToStore
      ensures messagesToStore == OrderedChannel.Purge(old(messagesToStore), sequenceNumberOfLastDelivered)
    {
      ghost var before := messagesToStore;
      for key := 0 to 65536
        invariant messagesToStore == map k | k in before && (k >= key || k > sequenceNumberOfLastDelivered) :: before[k]
      {
        if key in messagesToStore && key <= sequenceNumberOfLastDelivered {
          messagesToStore := messagesToStore - {key};
        }
      }
    }

    /** onWritePacket for this peer: appends to a packet what it takes. */
    method Write(data: seq<Byte>, packet: SequenceNumber, c: Clock) returns (out: seq<Byte>)
      modifies this
      ensures State() == WritePacket(old(State()), |data|, packet, c).st
      ensures out == data + PutEntries(WritePacket(old(State()), |data|, packet, c).entries)
    {
      TwoLoopsWrite(State(), data, packet, c);
      var complete;
      out, complete := WriteReliable(data, packet, c);
      if !complete { return; }
      hasReliableDataToSendInTheCurrentFrame := false;
      out := WriteUnreliable(out);
    }

    /** The loop over the reliable queue; it is cut short by a message that does not fit. */
    method WriteReliable(data: seq<Byte>, packet: SequenceNumber, c: Clock) returns (out: seq<Byte>, complete: bool)
      modifies this`reliableMessagesToSend
      ensures var q := old(reliableMessagesToSend);
              var walk := WalkReliable(q, 0, |data|, c);
              && reliableMessagesToSend == StampUpTo(q, walk.stop, packet, c)
              && complete == (walk.stop == |q|) && |out| == walk.used
              && out == data + PutEntries(DueEntries(q[..walk.stop], c))
    {
      out := data;
      ghost var q := reliableMessagesToSend;
      var i := 0;
      while i < |reliableMessagesToSend|
        invariant i <= |q| && WrittenTo(q, i, data, packet, c, reliableMessagesToSend, out)
      {
        var m := reliableMessagesToSend[i];
        if !Fits(|m.message|, |out|) {
          WritingStops(q, i, data, packet, c, reliableMessagesToSend, out);
          return out, false;
        }
        WriteOneMore(q, i, data, packet, c, reliableMessagesToSend, out);
        if Due(m, c) {
          out := AppendMessage(out, m.sequenceNum, RELIABLE_CHANNEL_ID, m.message);
          reliableMessagesToSend := reliableMessagesToSend[i := m.(sentTimeMs := c.now, packetSequenceNum := packet)];
        }
        i := i + 1;
      }
      WritingStops(q, i, data, packet, c, reliableMessagesToSend, out);
      complete := true;
    }

    /** header.serialize(_data) and _data.append(message). */
    static method AppendMessage(data: seq<Byte>, sequenceNum: SequenceNumber, channelId: Byte, message: Payload)
      returns (out: seq<Byte>)
      ensures out == data + PutEntry(Entry(sequenceNum, channelId, message))
    {
      var header := HeaderFor(sequenceNum, |message|, channelId);
      out := data + PutMessageHeader(header);
      out := out + message;
    }

    /** The loop over the unreliable queue. */
    method WriteUnreliable(data: seq<Byte>) returns (out: seq<Byte>)
      modifies this`unreliableMessagesToSend
      ensures var u := old(unreliableMessagesToSend);
              var n := TakeUnreliable(u, |data|);
              unreliableMessagesToSend == u[n..] && out == data + PutEntries(UnreliableEntries(u[..n]))
    {
      out := data;
      ghost var u := unreliableMessagesToSend;
      ghost var n := 0;
      assert UnreliableEntries(u[..0]) == [];
      while unreliableMessagesToSend != []
        invariant n <= |u| && unreliableMessagesToSend == u[n..]
        invariant TakeUnreliable(u, |data|) == n + TakeUnreliable(u[n..], |out|)
        invariant out == data + PutEntries(UnreliableEntries(u[..n]))
        decreases |unreliableMessagesToSend|
      {
        var message := unreliableMessagesToSend[0];
        if !Fits(|message|, |out|) { return; }
        UnreliableBytesGrow(data, u, n);
        out := AppendMessage(out, 0, UNRELIABLE_CHANNEL_ID, message);
        unreliableMessagesToSend := unreliableMessagesToSend[1..];
        n := n + 1;
      }
    }

    /** onReadPacket for this peer: the loop over the messages of a packet. */
    method Read(data: seq<Byte>)
      requires GetEntries(data, PACKET_HEADER_SIZE_BYTES).Some?
      modifies this
      ensures State() == ReceiveEntries(old(State()), GetEntries(data, PACKET_HEADER_SIZE_BYTES).value)
    {
      var readPos: nat := PACKET_HEADER_SIZE_BYTES;
      while readPos < |data|
        invariant GetEntries(data, readPos).Some?
        invariant ReceiveEntries(State(), GetEntries(data, readPos).value)
               == ReceiveEntries(old(State()), GetEntries(data, PACKET_HEADER_SIZE_BYTES).value)
        decreases |data| - readPos
      {
        var header := GetMessageHeader(data, readPos);
        readPos := readPos + MESSAGE_HEADER_SIZE_BYTES;
        var message := data[readPos..readPos + header.messageSize];
        readPos := readPos + header.messageSize;
        OnMessageReceived(header, message);
      }
    }

    /** onPacketAcked for this peer: the erase-remove over the queue. */
    method RemoveAckedMessages(acked: set<SequenceNumber>)
      modifies this`reliableMessagesToSend
      ensures State() == RemoveAcked(old(State()), acked)
    {
      if reliableMessagesToSend == [] { return; }
      var q := reliableMessagesToSend;
      var kept: seq<ReliableMessage> := [];
      NoneKeptYet(q, acked);
      for i := 0 to |q|
        invariant KeptUpTo(q, acked, i, kept)
      {
        KeepOneMore(q, acked, i, kept);
        if q[i].packetSequenceNum !in acked { kept := kept + [q[i]]; }
      }
      AllKept(q, acked, kept);
      reliableMessagesToSend := kept;
    }

    /** deliverMessages, which empties the two queues by calling the user, and the frame flag, for this peer. */
    method Deliver() returns (received: Reception)
      modifies this
      ensures State() == Flush(old(State())) && received == ReceptionFrom(peerId, old(State()))
    {
      var handed: seq<Handed> := [];
      ghost var all := HandedBy(State());
      while reliableMessagesToDeliver != []
        invariant State() == old(State()).(reliableToDeliver := reliableMessagesToDeliver)
        invariant handed + HandedBy(State()) == all
        decreases |reliableMessagesToDeliver|
      {
        OneReliableHanded(State(), handed);
        handed := handed + [Handed(reliableMessagesToDeliver[0], true)];
        reliableMessagesToDeliver := reliableMessagesToDeliver[1..];
      }
      while unreliableMessagesToDeliver != []
        invariant State() == old(State()).(reliableToDeliver := [], unreliableToDeliver := unreliableMessagesToDeliver)
        invariant handed + HandedBy(State()) == all
        decreases |unreliableMessagesToDeliver|
      {
        OneUnreliableHanded(State(), handed);
        handed := handed + [Handed(unreliableMessagesToDeliver[0], false)];
        unreliableMessagesToDeliver := unreliableMessagesToDeliver[1..];
      }
      received := Reception(peerId, handed);
      hasReliableDataToSendInTheCurrentFrame := reliableMessagesToSend != [];
    }
  }

  /** The ids of the list are the keys, each once. */
  ghost predicate Covers(order: seq<ConnectionId>, ids: set<ConnectionId>) {
    && (forall i | 0 <= i < |order| :: order[i] in ids)
    && (forall id | id in ids :: id in order)
    && (forall i, j | 0 <= i < j < |order| :: order[i] != order[j])
  }

  /** The id was at `k` and is gone; the others keep their order. */
  ghost predicate WithoutOne(before: seq<ConnectionId>, k: nat, id: ConnectionId, after: seq<ConnectionId>) {
    k < |before| && before[k] == id && after == before[..k] + before[k + 1..]
  }

  lemma CoversFewer(order: seq<ConnectionId>, ids: set<ConnectionId>, k: nat)
    requires Covers(order, ids) && k < |order|
    ensures Covers(order[..k] + order[k + 1..], ids - {order[k]})
  {
  }

  /** What the first `k` peers deliver. */
  ghost function ReceptionsUpTo(contents: map<ConnectionId, PeerState>, order: seq<ConnectionId>, k: nat): seq<Reception>
    requires k <= |order| && forall i | 0 <= i < |order| :: order[i] in contents
  {
    seq(k, i requires 0 <= i < k => ReceptionFrom(order[i], contents[order[i]]))
  }

  lemma ReceptionsOneMore(contents: map<ConnectionId, PeerState>, order: seq<ConnectionId>, k: nat)
    requires k < |order| && forall i | 0 <= i < |order| :: order[i] in contents
    ensures ReceptionsUpTo(contents, order, k + 1)
         == ReceptionsUpTo(contents, order, k) + [ReceptionFrom(order[k], contents[order[k]])]
  {
  }

  /** The contents after the first `k` peers were offered the message. */
  ghost function OfferedUpTo(contents: map<ConnectionId, PeerState>, order: seq<ConnectionId>, k: nat,
                             target: Target, message: Payload, isReliable: bool): map<ConnectionId, PeerState>
    requires k <= |order|
  {
    map id | id in contents ::
      if id in order[..k] then Offered(contents[id], id, target, message, isReliable) else contents[id]
  }

  lemma OfferedOneMore(contents: map<ConnectionId, PeerState>, order: seq<ConnectionId>, k: nat,
                       target: Target, message: Payload, isReliable: bool)
    requires k < |order| && Covers(order, contents.Keys)
    ensures var so := OfferedUpTo(contents, order, k, target, message, isReliable);
            && order[k] in so
            && so[order[k] := Offered(so[order[k]], order[k], target, message, isReliable)]
               == OfferedUpTo(contents, order, k + 1, target, message, isReliable)
  {
    assert order[..k + 1] == order[..k] + [order[k]];
  }

  /** The contents after the first `k` peers delivered what they hold. */
  ghost function FlushedUpTo(contents: map<ConnectionId, PeerState>, order: seq<ConnectionId>, k: nat): map<ConnectionId, PeerState>
    requires k <= |order|
  {
    map id | id in contents :: if id in order[..k] then Flush(contents[id]) else contents[id]
  }

  lemma FlushedOneMore(contents: map<ConnectionId, PeerState>, order: seq<ConnectionId>, k: nat)
    requires k < |order| && Covers(order, contents.Keys)
    ensures var so := FlushedUpTo(contents, order, k);
            && order[k] in so && so[order[k]] == contents[order[k]]
            && so[order[k] := Flush(so[order[k]])] == FlushedUpTo(contents, order, k + 1)
  {
  }

  class ChannelManager {
    var peers: seq<Peer>
    const timeAfterResendReliableMessageMs: nat
    ghost var order: seq<ConnectionId>  // the ids in list order
    ghost var contents: map<ConnectionId, PeerState>
    ghost var Repr: set<object>

    ghost predicate Valid()
      reads this, Repr
    {
      && this in Repr
      && timeAfterResendReliableMessageMs > 0
      && |order| == |peers| && Covers(order, contents.Keys)
      && (forall i | 0 <= i < |peers| :: PeerOk(peers[i]) && peers[i].peerId == order[i])
    }

    ghost predicate PeerOk(p: Peer)
      reads this, Repr
    {
      p in Repr && p.peerId in contents && contents[p.peerId] == p.State()
    }

    /** A configured delay of zero means the default. */
    constructor (resendAfterMs: nat)
      ensures Valid() && fresh(Repr) && contents == map[]
      ensures timeAfterResendReliableMessageMs == if resendAfterMs == 0 then 200 else resendAfterMs
    {
      peers, order, contents := [], [], map[];
      timeAfterResendReliableMessageMs := if resendAfterMs == 0 then 200 else resendAfterMs;
      Repr := {this};
    }

    method FindPeer(id: ConnectionId) returns (k: nat)
      requires Valid()
      ensures k <= |peers|
      ensures k < |peers| <==> id in contents
      ensures k < |peers| ==> peers[k].peerId == id && PeerOk(peers[k])
    {
      k := 0;
      while k < |peers|
        invariant k <= |peers|
        invariant id !in order[..k]
      {
        if peers[k].peerId == id { return; }
        k := k + 1;
      }
    }

    method OnConnected(id: ConnectionId)
      requires Valid()
      modifies this
      ensures Valid() && fresh(Repr - old(Repr))
      ensures contents == if id in old(contents) then old(contents) else old(contents)[id := NEW_PEER_STATE]
      ensures order == if id in old(contents) then old(order) else old(order) + [id]
    {
      var k := FindPeer(id);
      if k == |peers| {
        var peer := new Peer(id);
        Add(peer);
      }
    }

    method Add(peer: Peer)
      requires Valid() && peer.peerId !in contents
      modifies this
      ensures Valid() && Repr == old(Repr) + {peer}
      ensures contents == old(contents)[peer.peerId := peer.State()] && order == old(order) + [peer.peerId]
    {
      peers, order := peers + [peer], order + [peer.peerId];
      contents, Repr := contents[peer.peerId := peer.State()], Repr + {peer};
    }

    method OnDisconnected(id: ConnectionId)
      requires Valid()
      modifies this
      ensures Valid() && Repr == old(Repr)
      ensures contents == old(contents) - {id}
      ensures id !in old(contents) ==> order == old(order)
      ensures id in old(contents) ==> exists k :: WithoutOne(old(order), k, id, order)
    {
      var k := FindPeer(id);
      if k < |peers| {
        ghost var remaining := contents - {id};
        ghost var ids := order[..k] + order[k + 1..];
        var others := peers[..k] + peers[k + 1..];
        CoversFewer(order, contents.Keys, k);
        assert remaining.Keys == contents.Keys - {order[k]};
        forall i | 0 <= i < |others|
          ensures others[i] in Repr && others[i].peerId == ids[i]
          ensures ids[i] in remaining && remaining[ids[i]] == others[i].State()
        {
          var j := if i < k then i else i + 1;
          assert others[i] == peers[j] && ids[i] == order[j] && order[j] != order[k];
          assert PeerOk(peers[j]);
        }
        assert WithoutOne(order, k, id, ids);
        peers, order, contents := others, ids, remaining;
      }
    }

    method HasDataToWrite(id: ConnectionId) returns (r: bool)
      requires Valid()
      ensures r == (id in contents && HasDataToSend(contents[id]))
    {
      var k := FindPeer(id);
      if k == |peers| { return false; }
      r := peers[k].unreliableMessagesToSend != [] || peers[k].hasReliableDataToSendInTheCurrentFrame;
    }

    /** Appends to a packet what the peer of this connection takes; nothing without a peer. */
    method OnWritePacket(id: ConnectionId, packet: SequenceNumber, data: seq<Byte>, now: nat) returns (out: seq<Byte>)
      requires Valid()
      modifies Repr
      ensures Valid() && Repr == old(Repr) && peers == old(peers) && order == old(order)
      ensures id in old(contents) ==>
                (var w := WritePacket(old(contents)[id], |data|, packet, Clock(now, timeAfterResendReliableMessageMs));
                 contents == old(contents)[id := w.st] && out == data + PutEntries(w.entries))
      ensures id !in old(contents) ==> contents == old(contents) && out == data
    {
      var k := FindPeer(id);
      if k == |peers| { return data; }
      out := WriteFor(k, packet, data, Clock(now, timeAfterResendReliableMessageMs));
    }

    method WriteFor(k: nat, packet: SequenceNumber, data: seq<Byte>, c: Clock) returns (out: seq<Byte>)
      requires Valid() && k < |peers|
      modifies Repr
      ensures Valid() && Repr == old(Repr) && peers == old(peers) && order == old(order) && order[k] in old(contents)
      ensures var w := WritePacket(old(contents)[order[k]], |data|, packet, c);
              contents == old(contents)[order[k] := w.st] && out == data + PutEntries(w.entries)
    {
      assert PeerOk(peers[k]);
      out := peers[k].Write(data, packet, c);
      contents := contents[peers[k].peerId := peers[k].State()];
    }

    /** Hands every message of a packet to the peer.  The loop itself does not check that a message
        ends inside the packet. */
    method OnReadPacket(id: ConnectionId, data: seq<Byte>)
      requires Valid()
      requires GetEntries(data, PACKET_HEADER_SIZE_BYTES).Some?
      modifies Repr
      ensures Valid() && Repr == old(Repr) && peers == old(peers) && order == old(order)
      ensures id in old(contents) ==>
                contents == old(contents)[id := ReceiveEntries(old(contents)[id], GetEntries(data, PACKET_HEADER_SIZE_BYTES).value)]
      ensures id !in old(contents) ==> contents == old(contents)
    {
      var k := FindPeer(id);
      if k == |peers| { return; }
      peers[k].Read(data);
      contents := contents[id := peers[k].State()];
    }

    method OnPacketAcked(id: ConnectionId, acked: set<SequenceNumber>)
      requires Valid()
      modifies Repr
      ensures Valid() && Repr == old(Repr) && peers == old(peers) && order == old(order)
      ensures id in old(contents) ==> contents == old(contents)[id := RemoveAcked(old(contents)[id], acked)]
      ensures id !in old(contents) ==> contents == old(contents)
    {
      var k := FindPeer(id);
      if k == |peers| { return; }
      peers[k].RemoveAckedMessages(acked);
      contents := contents[id := peers[k].State()];
    }

    /** Queues a message at every peer it is addressed to. */
    method Send(target: Target, message: Payload, isReliable: bool)
      requires Valid()
      modifies Repr
      ensures Valid() && Repr == old(Repr) && peers == old(peers) && order == old(order)
      ensures contents.Keys == old(contents).Keys
      ensures forall id | id in contents :: contents[id] == Offered(old(contents)[id], id, target, message, isReliable)
    {
      if target.Unicast? {
        var k := FindPeer(target.id);
        if k < |peers| { SendTo(k, target, message, isReliable); }
      } else {
        SendToMany(target, message, isReliable);
      }
    }

    method SendToMany(target: Target, message: Payload, isReliable: bool)
      requires Valid()
      modifies Repr
      ensures Valid() && Repr == old(Repr) && peers == old(peers) && order == old(order)
      ensures contents.Keys == old(contents).Keys
      ensures forall id | id in contents :: contents[id] == Offered(old(contents)[id], id, target, message, isReliable)
    {
      ghost var before, ids := contents, order;
      var k := 0;
      while k < |peers|
        invariant k <= |peers| && Valid() && Repr == old(Repr) && peers == old(peers) && order == ids
        invariant contents == OfferedUpTo(before, ids, k, target, message, isReliable)
      {
        OfferedOneMore(before, ids, k, target, message, isReliable);
        SendTo(k, target, message, isReliable);
        k := k + 1;
      }
    }

    method SendTo(k: nat, target: Target, message: Payload, isReliable: bool)
      requires Valid() && k < |peers|
      modifies Repr
      ensures Valid() && Repr == old(Repr) && peers == old(peers) && order == old(order)
      ensures var id := order[k];
              && id in old(contents)
              && contents == old(contents)[id := Offered(old(contents)[id], id, target, message, isReliable)]
    {
      assert PeerOk(peers[k]);
      if Addressed(target, peers[k].peerId) {
        peers[k].Send(message, isReliable);
        contents := contents[peers[k].peerId := peers[k].State()];
      }
    }

    /** Delivers what is queued and sets each peer's frame flag if reliable messages are pending. */
    method UpdateReceive() returns (received: seq<Reception>)
      requires Valid()
      modifies Repr
      ensures Valid() && Repr == old(Repr) && peers == old(peers) && order == old(order)
      ensures contents.Keys == old(contents).Keys && Covers(order, contents.Keys)
      ensures forall id | id in contents :: contents[id] == Flush(old(contents)[id])
      ensures received == ReceptionsUpTo(old(contents), order, |order|)
    {
      ghost var before, ids := contents, order;
      received := [];
      var k := 0;
      while k < |peers|
        invariant k <= |peers| && Valid() && Repr == old(Repr) && peers == old(peers) && order == ids
        invariant contents == FlushedUpTo(before, ids, k)
        invariant received == ReceptionsUpTo(before, ids, k)
      {
        ReceptionsOneMore(before, ids, k);
        FlushedOneMore(before, ids, k);
        var one := FlushPeer(k);
        received := received + [one];
        k := k + 1;
      }
    }

    method FlushPeer(k: nat) returns (received: Reception)
      requires Valid() && k < |peers|
      modifies Repr
      ensures Valid() && Repr == old(Repr) && peers == old(peers) && order == old(order) && order[k] in old(contents)
      ensures contents == old(contents)[order[k] := Flush(old(contents)[order[k]])]
      ensures received == ReceptionFrom(order[k], old(contents)[order[k]])
    {
      assert PeerOk(peers[k]);
      received := peers[k].Deliver();
      contents := contents[peers[k].peerId := peers[k].State()];
    }
  }
}
