/** What ConnectionManager::updateSend puts on the network for every connection. */
module SendFrames {
  import opened SequenceNumbers
  import opened Bytes
  import opened Packing
  import opened Connections
  import opened Lifecycle

  /** A user packet with this sequence number and these messages. */
  ghost predicate Carries(o: Outgoing, to: Address, s: SequenceNumber, entries: seq<Entry>) {
    o.to == to && exists ack, bits :: o.data == PutPacket(PacketHeader(USER_PACKET, s, ack, bits), entries)
  }

  /** The packets sent from position `at` on carry the frame, numbered from `first`. */
  ghost predicate CarryFrame(sent: seq<Outgoing>, at: nat, to: Address, first: SequenceNumber, frame: seq<seq<Entry>>) {
    && at + |frame| <= |sent|
    && (forall k | 0 <= k < |frame| :: Carries(sent[at + k], to, Wire(first as int + k), frame[k]))
  }

  /** From `h` to `r` the connection at `i` sent the packets of `frame`: to its address, in order, with
      consecutive sequence numbers; its channel peer became `st`, and no other peer was touched. */
  ghost predicate Sends(h: Host, i: nat, r: Host, st: PeerState, frame: seq<seq<Entry>>)
    requires i < |h.connections|
  {
    var id := h.connections[i].id;
    && InTables(h, id) && id in r.packets
    && r == h.(channels := h.channels[id := st], packets := h.packets[id := r.packets[id]], sent := r.sent)
    && r.packets[id].generator == Wire(h.packets[id].generator as int + |frame|)
    && |r.sent| == |h.sent| + |frame| && r.sent[..|h.sent|] == h.sent
    && CarryFrame(r.sent, |h.sent|, h.connections[i].address, h.packets[id].generator, frame)
  }

  lemma RoundSends(h: Host, i: nat, c: Clock, r: Host)
    requires i < |h.connections| && HasData(h, i) && InTables(h, h.connections[i].id) && r == SendPass(h, i, c)
    ensures var id := h.connections[i].id;
            var w := WritePacket(h.channels[id], PACKET_HEADER_SIZE_BYTES, h.packets[id].generator, c);
            Sends(h, i, r, w.st, [w.entries])
  {
    var header := NextHeader(h, h.connections[i].id);
    assert r.sent[|h.sent|].data
        == PutPacket(PacketHeader(USER_PACKET, header.sequenceNum, header.ack, header.ackBits),
                     WritePacket(h.channels[h.connections[i].id], PACKET_HEADER_SIZE_BYTES, header.sequenceNum, c).entries);
  }

  lemma SendsMore(h: Host, i: nat, h1: Host, r: Host, st1: PeerState, entries: seq<Entry>, st: PeerState, rest: seq<seq<Entry>>)
    requires i < |h.connections| == |h1.connections| && Sends(h, i, h1, st1, [entries]) && Sends(h1, i, r, st, rest)
    ensures Sends(h, i, r, st, [entries] + rest)
  {
    var first := h.packets[h.connections[i].id].generator;
    assert r.sent[..|h.sent|] == r.sent[..|h1.sent|][..|h.sent|];
    assert r.sent[|h.sent|] == r.sent[..|h1.sent|][|h.sent|];
    assert Carries(h1.sent[|h.sent| + 0], h.connections[i].address, Wire(first as int + 0), [entries][0]);
    CarryOneMore(r.sent, |h.sent|, h.connections[i].address, first, entries, rest);
    WireOfWire(first as int + 1, |rest|);
  }

  lemma CarryOneMore(sent: seq<Outgoing>, at: nat, to: Address, first: SequenceNumber, entries: seq<Entry>, rest: seq<seq<Entry>>)
    requires at < |sent| && Carries(sent[at], to, first, entries)
    requires CarryFrame(sent, at + 1, to, Wire(first as int + 1), rest)
    ensures CarryFrame(sent, at, to, first, [entries] + rest)
  {
    forall k | 0 <= k < |rest| + 1
      ensures Carries(sent[at + k], to, Wire(first as int + k), ([entries] + rest)[k])
    {
      if k > 0 {
        assert Carries(sent[at + 1 + (k - 1)], to, Wire(Wire(first as int + 1) + (k - 1)), rest[k - 1]);
        WireOfWire(first as int + 1, k - 1);
      }
    }
  }

  lemma FrameUnfolds(st: PeerState, first: SequenceNumber, c: Clock)
    requires LoopEnds(st, c) && c.resendAfter > 0 && HasDataToSend(st)
    ensures var w := WritePacket(st, PACKET_HEADER_SIZE_BYTES, first, c);
            LoopEnds(w.st, c) &&
            (var rest := Frame(w.st, Wire(first as int + 1), c);
             Frame(st, first, c) == (rest.0, [w.entries] + rest.1))
  {
    PassKeepsLoopEnds(st, first, c);
  }

  /** The frame of the connection's channel peer. */
  function FrameOf(h: Host, i: nat, c: Clock): (PeerState, seq<seq<Entry>>)
    requires i < |h.connections| && Ends(h, i, c) && InTables(h, h.connections[i].id)
  {
    Frame(h.channels[h.connections[i].id], h.packets[h.connections[i].id].generator, c)
  }

  lemma OneRound(h: Host, i: nat, c: Clock) returns (h1: Host, w: Written)
    requires i < |h.connections| && Ends(h, i, c) && HasData(h, i) && InTables(h, h.connections[i].id)
    ensures h1.connections == h.connections && Ends(h1, i, c) && SendAll(h, i, c) == SendAll(h1, i, c)
    ensures w == WritePacket(h.channels[h.connections[i].id], PACKET_HEADER_SIZE_BYTES, h.packets[h.connections[i].id].generator, c)
    ensures Sends(h, i, h1, w.st, [w.entries])
  {
    h1 := SendPass(h, i, c);
    w := WritePacket(h.channels[h.connections[i].id], PACKET_HEADER_SIZE_BYTES, h.packets[h.connections[i].id].generator, c);
    PassShrinks(h, i, c);
    RoundSends(h, i, c, h1);
  }

  lemma FirstRound(h: Host, i: nat, c: Clock) returns (h1: Host, w: Written)
    requires i < |h.connections| && Ends(h, i, c) && HasData(h, i) && InTables(h, h.connections[i].id)
    ensures h1.connections == h.connections && Ends(h1, i, c) && InTables(h1, h.connections[i].id)
    ensures SendAll(h, i, c) == SendAll(h1, i, c) && Less(PendingOf(h1, i), PendingOf(h, i), c)
    ensures Sends(h, i, h1, w.st, [w.entries])
    ensures FrameOf(h, i, c) == (FrameOf(h1, i, c).0, [w.entries] + FrameOf(h1, i, c).1)
  {
    var st, first := h.channels[h.connections[i].id], h.packets[h.connections[i].id].generator;
    h1, w := OneRound(h, i, c);
    FrameUnfolds(st, first, c);
    PassKeepsLoopEnds(st, first, c);
  }

  /** The loop for one connection sends the frame of its channel peer. */
  lemma {:induction false} LoopSendsFrame(h: Host, i: nat, c: Clock, r: Host)
    requires i < |h.connections| && Ends(h, i, c) && InTables(h, h.connections[i].id)
    requires r == SendAll(h, i, c)
    ensures Sends(h, i, r, FrameOf(h, i, c).0, FrameOf(h, i, c).1)
    decreases DueCount(PendingOf(h, i).reliable, c), |PendingOf(h, i).unreliable|, PendingOf(h, i).hasReliable
  {
    if !HasData(h, i) {
      var id := h.connections[i].id;
      assert h.channels[id := h.channels[id]] == h.channels && h.packets[id := h.packets[id]] == h.packets;
    } else {
      var h1, w := FirstRound(h, i, c);
      LoopSendsFrame(h1, i, c, r);
      SendsMore(h, i, h1, r, w.st, w.entries, FrameOf(h1, i, c).0, FrameOf(h1, i, c).1);
    }
  }

  // ---------------------------------------------------------------------------------------------
  // All connections

  lemma StaysCarried(sent: seq<Outgoing>, more: seq<Outgoing>, at: nat, to: Address, first: SequenceNumber, frame: seq<seq<Entry>>)
    requires CarryFrame(sent, at, to, first, frame) && |sent| <= |more| && more[..|sent|] == sent
    ensures CarryFrame(more, at, to, first, frame)
  {
    forall k | 0 <= k < |frame|
      ensures Carries(more[at + k], to, Wire(first as int + k), frame[k])
    {
      assert more[at + k] == more[..|sent|][at + k] == sent[at + k];
    }
  }

  ghost predicate FrameInTurn(h: Host, i: nat, c: Clock, sent: seq<Outgoing>)
    requires i < |h.connections| && AllEnd(h, c) && InTables(h, h.connections[i].id)
  {
    CarryFrame(sent, |h.sent| + PacketCount(h, i, c), h.connections[i].address,
               h.packets[h.connections[i].id].generator, FrameOf(h, i, c).1)
  }

  /** How many packets the frames of the first `k` connections take. */
  function PacketCount(h: Host, k: nat, c: Clock): nat
    requires k <= |h.connections| && AllEnd(h, c)
  {
    if k == 0 then 0
    else PacketCount(h, k - 1, c) + (if InTables(h, h.connections[k - 1].id) then |FrameOf(h, k - 1, c).1| else 0)
  }

  predicate SameConnections(cs: seq<Connection>, cs': seq<Connection>) {
    |cs'| == |cs| && forall i | 0 <= i < |cs| :: cs'[i] == cs[i].(heartbeatSentMs := cs'[i].heartbeatSentMs)
  }

  /** What is true after the first `k` connections: their frames are out and nothing else is. */
  ghost predicate SentFrames(h: Host, k: nat, c: Clock, r: Host)
    requires k <= |h.connections| && AllEnd(h, c)
  {
    && SentOnly(h, k, c, r)
    && (forall i | 0 <= i < |h.connections| && InTables(h, h.connections[i].id) :: SentOne(h, i, k, c, r))
  }

  ghost predicate SentOnly(h: Host, k: nat, c: Clock, r: Host)
    requires k <= |h.connections| && AllEnd(h, c)
  {
    && SameConnections(h.connections, r.connections) && AllEnd(r, c)
    && r == h.(connections := r.connections, channels := r.channels, packets := r.packets, sent := r.sent)
    && r.channels.Keys == h.channels.Keys && r.packets.Keys == h.packets.Keys
    && |r.sent| == |h.sent| + PacketCount(h, k, c) && r.sent[..|h.sent|] == h.sent
  }

  ghost predicate SentOne(h: Host, i: nat, k: nat, c: Clock, r: Host)
    requires i < |h.connections| && AllEnd(h, c) && InTables(h, h.connections[i].id)
  {
    var id := h.connections[i].id;
    InTables(r, id) &&
    if i < k
    then r.channels[id] == FrameOf(h, i, c).0 && FrameInTurn(h, i, c, r.sent)
    else r.channels[id] == h.channels[id] && r.packets[id] == h.packets[id]
  }

  lemma SentOneMore(h: Host, k: nat, c: Clock, r: Host, r': Host)
    requires k < |h.connections| && AllEnd(h, c) && Settled(h)
    requires SentFrames(h, k, c, r) && r' == SendFrame(r, k, c)
    ensures SentFrames(h, k + 1, c, r')
  {
    assert ConnectionOk(h, k, 0);
    if InTables(h, h.connections[k].id) {
      assert SentOne(h, k, k, c, r);
      var all := SendAll(r, k, c);
      LoopSendsFrame(r, k, c, all);
      AfterLoop(h, k, c, r, all, r', FrameOf(h, k, c));
    } else {
      NothingForNobody(h, k, c, r);
    }
  }

  lemma NothingForNobody(h: Host, k: nat, c: Clock, r: Host)
    requires k < |h.connections| && AllEnd(h, c) && SentFrames(h, k, c, r)
    requires !InTables(h, h.connections[k].id)
    ensures SentFrames(h, k + 1, c, r)
  {
  }

  lemma AfterLoop(h: Host, k: nat, c: Clock, r: Host, all: Host, r': Host, f: (PeerState, seq<seq<Entry>>))
    requires Distinct(h.connections)
    requires k < |h.connections| && AllEnd(h, c) && SentOnly(h, k, c, r)
    requires InTables(h, h.connections[k].id) && f == FrameOf(h, k, c) && Sends(r, k, all, f.0, f.1)
    requires AllEnd(r', c) && r' == all.(connections := r'.connections) && SameConnections(r.connections, r'.connections)
    requires SentFrames(h, k, c, r)
    ensures SentFrames(h, k + 1, c, r')
  {
    assert SentOne(h, k, k, c, r);
    LoopSendsOnly(h, k, c, r, all, r', f);
    LoopSendsThis(h, k, c, r, all, r', f);
    OthersStaySent(h, k, c, r, r');
  }

  lemma LoopSendsOnly(h: Host, k: nat, c: Clock, r: Host, all: Host, r': Host, f: (PeerState, seq<seq<Entry>>))
    requires k < |h.connections| && AllEnd(h, c) && SentOnly(h, k, c, r)
    requires InTables(h, h.connections[k].id) && f == FrameOf(h, k, c) && Sends(r, k, all, f.0, f.1)
    requires AllEnd(r', c) && r' == all.(connections := r'.connections) && SameConnections(r.connections, r'.connections)
    ensures SentOnly(h, k + 1, c, r')
  {
    assert r'.sent[..|h.sent|] == r'.sent[..|r.sent|][..|h.sent|];
  }

  lemma LoopSendsThis(h: Host, k: nat, c: Clock, r: Host, all: Host, r': Host, f: (PeerState, seq<seq<Entry>>))
    requires k < |h.connections| && AllEnd(h, c) && SentOnly(h, k, c, r)
    requires InTables(h, h.connections[k].id) && f == FrameOf(h, k, c) && Sends(r, k, all, f.0, f.1)
    requires AllEnd(r', c) && r' == all.(connections := r'.connections) && SameConnections(r.connections, r'.connections)
    requires r.packets[h.connections[k].id].generator == h.packets[h.connections[k].id].generator
    ensures SentOne(h, k, k + 1, c, r')
  {
    assert CarryFrame(r'.sent, |r.sent|, h.connections[k].address, h.packets[h.connections[k].id].generator, f.1);
  }

  lemma OthersStaySent(h: Host, k: nat, c: Clock, r: Host, r': Host)
    requires k < |h.connections| && AllEnd(h, c) && Distinct(h.connections)
    requires forall i | 0 <= i < |h.connections| && InTables(h, h.connections[i].id) :: SentOne(h, i, k, c, r)
    requires h.connections[k].id in r'.channels && h.connections[k].id in r'.packets
    requires r'.channels == r.channels[h.connections[k].id := r'.channels[h.connections[k].id]]
    requires r'.packets == r.packets[h.connections[k].id := r'.packets[h.connections[k].id]]
    requires |r.sent| <= |r'.sent| && r'.sent[..|r.sent|] == r.sent
    ensures forall i | 0 <= i < |h.connections| && i != k && InTables(h, h.connections[i].id) :: SentOne(h, i, k + 1, c, r')
  {
    forall i | 0 <= i < |h.connections| && i != k && InTables(h, h.connections[i].id)
      ensures SentOne(h, i, k + 1, c, r')
    {
      OtherStaysSent(h, i, k, c, r, r');
    }
  }

  lemma OtherStaysSent(h: Host, i: nat, k: nat, c: Clock, r: Host, r': Host)
    requires i < |h.connections| && k < |h.connections| && i != k && AllEnd(h, c) && Distinct(h.connections)
    requires InTables(h, h.connections[i].id) && SentOne(h, i, k, c, r)
    requires h.connections[k].id in r'.channels && h.connections[k].id in r'.packets
    requires r'.channels == r.channels[h.connections[k].id := r'.channels[h.connections[k].id]]
    requires r'.packets == r.packets[h.connections[k].id := r'.packets[h.connections[k].id]]
    requires |r.sent| <= |r'.sent| && r'.sent[..|r.sent|] == r.sent
    ensures SentOne(h, i, k + 1, c, r')
  {
    assert h.connections[i].id != h.connections[k].id;
    if i < k {
      StaysCarried(r.sent, r'.sent, |h.sent| + PacketCount(h, i, c), h.connections[i].address,
                   h.packets[h.connections[i].id].generator, FrameOf(h, i, c).1);
    }
  }

  lemma {:induction false} SendUpToSends(h: Host, k: nat, c: Clock, r: Host)
    requires k <= |h.connections| && AllEnd(h, c) && Settled(h) && r == SendUpTo(h, k, c)
    ensures SentFrames(h, k, c, r)
    decreases k
  {
    if k > 0 {
      SendUpToSends(h, k - 1, c, SendUpTo(h, k - 1, c));
      SentOneMore(h, k - 1, c, SendUpTo(h, k - 1, c), r);
    }
  }

  /** Reliable message `j` queued for the connection at `i`: if it was due, one packet of the frame
      carries it and its record names that packet; if not, its record did not change. */
  ghost predicate MessageSent(h: Host, i: nat, j: nat, c: Clock, r: Host)
    requires i < |h.connections| && AllEnd(h, c)
    requires InTables(h, h.connections[i].id) && InTables(r, h.connections[i].id)
    requires j < |h.channels[h.connections[i].id].reliable| == |r.channels[h.connections[i].id].reliable|
  {
    var id := h.connections[i].id;
    var (m, m') := (h.channels[id].reliable[j], r.channels[id].reliable[j]);
    if Due(m, c) then WrittenIn(m, m', FrameOf(h, i, c).1, h.packets[id].generator, c) else m' == m
  }

  /** updateSend returns with nothing left to send.  What it put on the network is, connection by
      connection in list order, one frame in one piece and nothing else.  With the clock not at 0, a frame holds the due
      reliable messages of its connection in queue order and the unreliable ones in order, each once, and
      the record of every reliable message names the packet that carries it. */
  lemma UpdateSendIsComplete(h: Host, c: Clock)
    requires Settled(h) && AllEnd(h, c)
    ensures var r := UpdateSend(h, c);
            && SameConnections(h.connections, r.connections)
            && |r.sent| == |h.sent| + PacketCount(h, |h.connections|, c) && r.sent[..|h.sent|] == h.sent
            && (forall i | 0 <= i < |h.connections| :: !HasData(r, i))
            && (forall i | 0 <= i < |h.connections| && HasData(h, i) :: InTables(h, h.connections[i].id) && FrameInTurn(h, i, c, r.sent))
            && (c.now > 0 ==> forall i | 0 <= i < |h.connections| && HasData(h, i) :: ConnectionSent(h, i, c, r))
  {
    var r := UpdateSend(h, c);
    SendUpToSends(h, |h.connections|, c, r);
    forall i | 0 <= i < |h.connections|
      ensures !HasData(r, i)
      ensures HasData(h, i) ==> InTables(h, h.connections[i].id) && FrameInTurn(h, i, c, r.sent)
      ensures c.now > 0 && HasData(h, i) ==> ConnectionSent(h, i, c, r)
    {
      assert ConnectionOk(h, i, 0);
      if InTables(h, h.connections[i].id) {
        assert SentOne(h, i, |h.connections|, c, r);
        ConnectionIsSent(h, i, c, r);
      }
    }
  }

  ghost predicate ConnectionSent(h: Host, i: nat, c: Clock, r: Host)
    requires i < |h.connections| && AllEnd(h, c)
  {
    var id := h.connections[i].id;
    && InTables(h, id) && InTables(r, id) && FrameInTurn(h, i, c, r.sent)
    && (var (st, st', frame) := (h.channels[id], r.channels[id], Flatten(FrameOf(h, i, c).1));
        && st' == st.(hasReliable := false, unreliable := [], reliable := st'.reliable)
        && OnChannel(frame, RELIABLE_CHANNEL_ID) == DueEntries(st.reliable, c)
        && OnChannel(frame, UNRELIABLE_CHANNEL_ID) == UnreliableEntries(st.unreliable)
        && |st'.reliable| == |st.reliable|
        && forall j | 0 <= j < |st.reliable| :: MessageSent(h, i, j, c, r))
  }

  lemma ConnectionIsSent(h: Host, i: nat, c: Clock, r: Host)
    requires i < |h.connections| && AllEnd(h, c) && InTables(h, h.connections[i].id)
    requires |r.connections| == |h.connections| && r.connections[i].id == h.connections[i].id
    requires SentOne(h, i, |h.connections|, c, r)
    ensures !HasData(r, i) && FrameInTurn(h, i, c, r.sent)
    ensures c.now > 0 && HasData(h, i) ==> ConnectionSent(h, i, c, r)
  {
    var id := h.connections[i].id;
    FrameLeavesNothing(h.channels[id], h.packets[id].generator, c);
    if c.now > 0 && HasData(h, i) {
      FrameIsComplete(h.channels[id], h.packets[id].generator, c);
    }
  }
}
