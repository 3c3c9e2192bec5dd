/** The stateful side of packet acknowledgement (src/packetManager/PacketManager.hpp,
    src/packetManager/PacketManager.cpp). */
module PacketManagers {
  import opened SequenceNumbers
  import opened PacketAcks

  class PacketPeer {
    const connectionId: ConnectionId
    var sequenceNumberGenerator: SequenceNumber
    var receivedSequenceNumber: SequenceNumber
    const sentPacketData: array<PacketData>
    const receivedPacketData: array<PacketData>

    ghost predicate Valid() {
      sentPacketData.Length == 1024 && receivedPacketData.Length == 1024 && sentPacketData != receivedPacketData
    }

    ghost function State(): PacketState
      requires Valid()
      reads this, sentPacketData, receivedPacketData
    {
      PacketState(sequenceNumberGenerator, receivedSequenceNumber, sentPacketData[..], receivedPacketData[..])
    }

    constructor (id: ConnectionId)
      ensures Valid() && State() == NewPacketState() && connectionId == id
      ensures fresh(sentPacketData) && fresh(receivedPacketData)
    {
      connectionId := id;
      sequenceNumberGenerator, receivedSequenceNumber := 0, MAX_SEQUENCE_NUMBER;
      sentPacketData := new PacketData[1024](_ => EMPTY_SLOT);
      receivedPacketData := new PacketData[1024](_ => EMPTY_SLOT);
      new;
      assert sentPacketData[..] == EmptyRing() && receivedPacketData[..] == EmptyRing();
    }

    method OnSendPacket(data: PacketData)
      requires Valid()
      modifies sentPacketData
      ensures State() == old(State()).(sentRing := old(State()).sentRing[Slot(data.sequence) := data])
    {
      sentPacketData[Slot(data.sequence)] := data;
    }

    method OnReceivePacket(data: PacketData)
      requires Valid() && data.state.Received?
      modifies this, receivedPacketData
      ensures State() == ReceivePacket(old(State()), data.sequence)
    {
      if SequenceGreaterThan(data.sequence, receivedSequenceNumber) {
        receivedSequenceNumber := data.sequence;
      }
      receivedPacketData[Slot(data.sequence)] := data;
    }

    /** Builds the field by shifting left, from the packet before the highest to the 32nd before it. */
    method GenerateAckBits() returns (ackBits: AckBits)
      requires Valid()
      ensures ackBits == AckField(State().receivedRing, receivedSequenceNumber)
    {
      ghost var ring := State().receivedRing;
      ackBits := 0;
      Pow2Of32();
      for i := 1 to 33
        invariant ackBits == AckFieldUpTo(ring, receivedSequenceNumber, i - 1)
      {
        ackBits := ShiftLeft(ackBits);
        assert ackBits == 2 * AckFieldUpTo(ring, receivedSequenceNumber, i - 1) by {
          Pow2Monotone(i, 32);
        }
        if receivedPacketData[Slot(Back(receivedSequenceNumber, i))].state.Received? {
          Pow2Monotone(i, 32);
          ackBits := ackBits + 1;
        }
      }
    }

    /** Reads the field by shifting right, from the 32nd packet before `ack` to the one before it. */
    method ProcessAckBits(ack: SequenceNumber, ackBits: AckBits) returns (acked: set<SequenceNumber>)
      requires Valid()
      modifies sentPacketData
      ensures (State(), acked) == ProcessAcks(old(State()), ack, ackBits)
    {
      acked := {};
      ghost var ring := State().sentRing;
      ghost var read: set<SequenceNumber> := {};
      var bits: nat := ackBits;
      var i: nat := 32;
      NothingMarked(ring);
      while i > 0
        invariant i <= 32
        invariant bits == ShiftRight(ackBits, 32 - i)
        invariant read == set k: nat | i < k <= 32 && Bit(ackBits, 32 - k) :: Back(ack, k)
        invariant acked == Reported(ring, read) && sentPacketData[..] == MarkAcked(ring, acked)
      {
        ghost var next := read;
        if bits % 2 == 1 {
          acked := ProcessAckBit(Back(ack, i), acked, ring, read);
          next := read + {Back(ack, i)};
        }
        ShiftRightBit(ackBits, 32 - i);
        assert next == set k: nat | i - 1 < k <= 32 && Bit(ackBits, 32 - k) :: Back(ack, k);
        read := next;
        bits := bits / 2;
        i := i - 1;
      }
      acked := ProcessAckBit(ack, acked, ring, read);
      assert read + {ack} == Selected(ack, ackBits);
    }

    /** The closure inside processAckBits; `ring` and `read` are the slots before the call began and the
        numbers handled so far. */
    method ProcessAckBit(s: SequenceNumber, acked: set<SequenceNumber>, ghost ring: Ring, ghost read: set<SequenceNumber>)
      returns (acked': set<SequenceNumber>)
      requires Valid()
      requires acked == Reported(ring, read) && sentPacketData[..] == MarkAcked(ring, acked)
      modifies sentPacketData
      ensures acked' == Reported(ring, read + {s}) && sentPacketData[..] == MarkAcked(ring, acked')
    {
      acked' := acked;
      var index := Slot(s);
      assert sentPacketData[index] == MarkAcked(ring, acked)[index];
      if sentPacketData[index].sequence == s && !sentPacketData[index].state.Acked? {
        sentPacketData[index] := sentPacketData[index].(state := Acked);
        acked' := acked + {s};
        assert sentPacketData[..] == MarkAcked(ring, acked')[..];
      }
    }

    /** What the manager's onSendPacket does with its peer. */
    method SendNext() returns (s: SequenceNumber, ack: SequenceNumber, ackBits: AckBits)
      requires Valid()
      modifies this, sentPacketData
      ensures (State(), s, ack, ackBits) == SendPacket(old(State()))
    {
      s := sequenceNumberGenerator;
      sequenceNumberGenerator := Wire(s + 1);
      OnSendPacket(PacketData(s, Empty));
      ackBits := GenerateAckBits();
      ack := receivedSequenceNumber;
    }

    /** What the manager's onReceivePacket does with its peer. */
    method ReceiveNext(s: SequenceNumber, ack: SequenceNumber, ackBits: AckBits) returns (acked: set<SequenceNumber>)
      requires Valid()
      modifies this, sentPacketData, receivedPacketData
      ensures (State(), acked) == ReceiveHeader(old(State()), s, ack, ackBits)
    {
      OnReceivePacket(PacketData(s, Received));
      acked := ProcessAckBits(ack, ackBits);
    }
  }

  /** `<<= 1` on 32 bits. */
  function ShiftLeft(bits: AckBits): AckBits {
    (2 * bits) % 0x1_0000_0000
  }

  /** `>>= 1`, `j` times. */
  function ShiftRight(bits: nat, j: nat): nat {
    if j == 0 then bits else ShiftRight(bits / 2, j - 1)
  }

  /** One more shift halves, and the lowest bit is bit `j` of the start. */
  lemma {:induction false} ShiftRightBit(bits: nat, j: nat)
    ensures ShiftRight(bits, j) % 2 == 1 <==> Bit(bits, j)
    ensures ShiftRight(bits, j + 1) == ShiftRight(bits, j) / 2
  {
    if j > 0 {
      ShiftRightBit(bits / 2, j - 1);
    }
  }

  lemma {:induction false} Pow2Monotone(a: nat, b: nat)
    requires a <= b
    ensures Pow2(a) <= Pow2(b)
  {
    if a < b {
      Pow2Monotone(a, b - 1);
    }
  }

  lemma NothingMarked(ring: Ring)
    ensures MarkAcked(ring, {}) == ring && Reported(ring, {}) == {}
  {
  }

  ghost predicate Apart(p: PacketPeer, q: PacketPeer) {
    && p != q && p.connectionId != q.connectionId
    && p.sentPacketData != q.sentPacketData && p.sentPacketData != q.receivedPacketData
    && p.receivedPacketData != q.sentPacketData && p.receivedPacketData != q.receivedPacketData
  }

  ghost predicate HasPeer(peers: seq<PacketPeer>, id: ConnectionId) {
    exists i | 0 <= i < |peers| :: peers[i].connectionId == id
  }

  lemma HasPeerWithout(peers: seq<PacketPeer>, k: nat, id: ConnectionId)
    requires k < |peers| && HasPeer(peers, id) && peers[k].connectionId != id
    ensures HasPeer(peers[..k] + peers[k + 1..], id)
  {
    var i :| 0 <= i < |peers| && peers[i].connectionId == id;
    assert (peers[..k] + peers[k + 1..])[if i < k then i else i - 1] == peers[i];
  }

  class PacketManager {
    var peers: seq<PacketPeer>
    ghost var contents: map<ConnectionId, PacketState>
    ghost var Repr: set<object>

    ghost predicate Valid()
      reads this, Repr
    {
      && this in Repr
      && (forall i | 0 <= i < |peers| :: PeerOk(peers[i]))
      && (forall i, j | 0 <= i < j < |peers| :: Apart(peers[i], peers[j]))
      && (forall id | id in contents :: HasPeer(peers, id))
    }

    ghost predicate PeerOk(p: PacketPeer)
      reads this, Repr
    {
      && p in Repr && p.sentPacketData in Repr && p.receivedPacketData in Repr
      && p.sentPacketData != this as object && p.receivedPacketData != this as object
      && p.Valid()
      && p.connectionId in contents && contents[p.connectionId] == p.State()
    }

    constructor ()
      ensures Valid() && fresh(Repr) && contents == map[]
    {
      peers, contents := [], map[];
      Repr := {this};
    }

    /** getPeer: the index of the peer, or the number of peers. */
    method FindPeer(id: ConnectionId) returns (k: nat)
      requires Valid()
      ensures k <= |peers|
      ensures k < |peers| <==> id in contents
      ensures k < |peers| ==> PeerOk(peers[k])
      ensures k < |peers| ==> peers[k].connectionId == id
    {
      k := 0;
      while k < |peers|
        invariant k <= |peers|
        invariant forall i | 0 <= i < k :: peers[i].connectionId != id
      {
        if peers[k].connectionId == id { return; }
        k := k + 1;
      }
    }

    /** A peer that is already there stays as it is. */
    method OnConnected(id: ConnectionId)
      requires Valid()
      modifies this
      ensures Valid() && fresh(Repr - old(Repr))
      ensures contents == if id in old(contents) then old(contents) else old(contents)[id := NewPacketState()]
    {
      var k := FindPeer(id);
      if k == |peers| {
        var peer := new PacketPeer(id);
        Add(peer);
      }
    }

    /** The arrays of a new peer are its own. */
    method Add(peer: PacketPeer)
      requires Valid() && peer.Valid() && peer.connectionId !in contents
      requires {peer, peer.sentPacketData, peer.receivedPacketData} !! Repr
      modifies this
      ensures Valid() && Repr == old(Repr) + {peer, peer.sentPacketData, peer.receivedPacketData}
      ensures contents == old(contents)[peer.connectionId := peer.State()]
    {
      ghost var before := peers;
      peers := peers + [peer];
      assert forall i | 0 <= i < |before| :: peers[i] == before[i];
      assert peers[|before|] == peer;
      contents := contents[peer.connectionId := peer.State()];
      Repr := Repr + {peer, peer.sentPacketData, peer.receivedPacketData};
    }

    method OnDisconnected(id: ConnectionId)
      requires Valid()
      modifies this
      ensures Valid() && Repr == old(Repr)
      ensures contents == old(contents) - {id}
    {
      var k := FindPeer(id);
      if k < |peers| {
        ghost var before := peers;
        peers := peers[..k] + peers[k + 1..];
        contents := contents - {id};
        forall other | other in contents
          ensures HasPeer(peers, other)
        {
          HasPeerWithout(before, k, other);
        }
      }
    }

    /** The fields for the header of the next packet; all zero without a peer. */
    method OnSendPacket(id: ConnectionId) returns (s: SequenceNumber, ack: SequenceNumber, ackBits: AckBits)
      requires Valid()
      modifies Repr
      ensures Valid() && Repr == old(Repr)
      ensures id in old(contents) ==>
                (var r := SendPacket(old(contents)[id]);
                 contents == old(contents)[id := r.0] && (s, ack, ackBits) == (r.1, r.2, r.3))
      ensures id !in old(contents) ==> contents == old(contents) && (s, ack, ackBits) == (0, 0, 0)
    {
      var k := FindPeer(id);
      if k == |peers| { return 0, 0, 0; }
      var peer := peers[k];
      assert forall i | 0 <= i < |peers| && i != k :: Apart(peers[i], peer) || Apart(peer, peers[i]);
      s, ack, ackBits := peer.SendNext();
      contents := contents[id := peer.State()];
    }

    /** Records the packet and returns the sequence numbers it newly acknowledges. */
    method OnReceivePacket(id: ConnectionId, s: SequenceNumber, ack: SequenceNumber, ackBits: AckBits)
      returns (acked: set<SequenceNumber>)
      requires Valid()
      modifies Repr
      ensures Valid() && Repr == old(Repr)
      ensures id in old(contents) ==>
                (var r := ReceiveHeader(old(contents)[id], s, ack, ackBits);
                 contents == old(contents)[id := r.0] && acked == r.1)
      ensures id !in old(contents) ==> contents == old(contents) && acked == {}
    {
      var k := FindPeer(id);
      if k == |peers| { return {}; }
      var peer := peers[k];
      assert forall i | 0 <= i < |peers| && i != k :: Apart(peers[i], peer) || Apart(peer, peers[i]);
      acked := peer.ReceiveNext(s, ack, ackBits);
      contents := contents[id := peer.State()];
    }
  }
}
