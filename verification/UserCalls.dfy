/** What single calls do for the user, said message by message: who gets what is sent, and what the receive
    callback is called with (src/NSFImpl.cpp:66-94). */
module UserCalls {
  import opened SequenceNumbers
  import opened Bytes
  import opened Packing
  import opened Channels
  import opened Connections
  import opened SingleConnections

  // ---------------------------------------------------------------------------------------------
  // Sending

  /** The reliable message is the last of its queue, unsent, under the next number, and is to go out in this
      frame; nothing else about the peer has changed. */
  predicate GotReliable(st: PeerState, st': PeerState, message: Payload) {
    var n := |st.reliable|;
    && |st'.reliable| == n + 1 && st'.reliable[..n] == st.reliable
    && st'.reliable[n].message == message && st'.reliable[n].sentTimeMs == 0 && st'.reliable[n].packetSequenceNum == 0
    && st'.reliable[n].sequenceNum == st.generator && st'.generator == (st.generator + 1) % 65536
    && st' == st.(reliable := st'.reliable, generator := st'.generator, hasReliable := true)
  }

  /** The unreliable message is the last of its queue. */
  predicate GotUnreliable(st: PeerState, st': PeerState, message: Payload) {
    var n := |st.unreliable|;
    && |st'.unreliable| == n + 1 && st'.unreliable[..n] == st.unreliable && st'.unreliable[n] == message
    && st' == st.(unreliable := st'.unreliable)
  }

  predicate Got(st: PeerState, st': PeerState, message: Payload, isReliable: bool) {
    if isReliable then GotReliable(st, st', message) else GotUnreliable(st, st', message)
  }

  /** Between two states of a host exactly the peers in `reached` got the message. */
  predicate ExactlyThese(h: Host, h': Host, message: Payload, isReliable: bool, reached: set<ConnectionId>) {
    && h' == h.(channels := h'.channels) && h'.channels.Keys == h.channels.Keys
    && forall id | id in h.channels ::
         if id in reached then Got(h.channels[id], h'.channels[id], message, isReliable) else h'.channels[id] == h.channels[id]
  }

  lemma AcceptedMessageIsGot(st: PeerState, message: Payload, isReliable: bool)
    requires |message| <= 1336
    ensures Got(st, Accept(st, message, isReliable), message, isReliable)
  {
  }

  lemma AddressedReach(h: Host, target: Target, message: Payload, isReliable: bool, reached: set<ConnectionId>)
    requires |message| <= 1336 && forall id | id in h.channels :: Addressed(target, id) <==> id in reached
    ensures ExactlyThese(h, Queue(h, target, message, isReliable), message, isReliable, reached)
  {
    var h' := Queue(h, target, message, isReliable);
    forall id | id in h.channels
      ensures if id in reached then Got(h.channels[id], h'.channels[id], message, isReliable) else h'.channels[id] == h.channels[id]
    {
      AcceptedMessageIsGot(h.channels[id], message, isReliable);
    }
  }

  /** A broadcast reaches every peer, one that excludes a peer every other peer, and a unicast that peer
      alone; a message over 1336 bytes reaches nobody. */
  lemma SendReaches(h: Host, one: ConnectionId, message: Payload, isReliable: bool)
    ensures |message| <= 1336 ==>
              && ExactlyThese(h, Queue(h, Broadcast, message, isReliable), message, isReliable, h.channels.Keys)
              && ExactlyThese(h, Queue(h, ExcludeBroadcast(one), message, isReliable), message, isReliable, h.channels.Keys - {one})
              && ExactlyThese(h, Queue(h, Unicast(one), message, isReliable), message, isReliable, h.channels.Keys * {one})
    ensures |message| > 1336 ==> forall target :: Queue(h, target, message, isReliable) == h
  {
    if |message| <= 1336 {
      AddressedReach(h, Broadcast, message, isReliable, h.channels.Keys);
      AddressedReach(h, ExcludeBroadcast(one), message, isReliable, h.channels.Keys - {one});
      AddressedReach(h, Unicast(one), message, isReliable, h.channels.Keys * {one});
    } else {
      forall target
        ensures Queue(h, target, message, isReliable) == h
      {
        assert Queue(h, target, message, isReliable).channels == h.channels;
      }
    }
  }

  // ---------------------------------------------------------------------------------------------
  // Receiving

  lemma {:induction false} BatchHandsOverNothing(h: Host, batch: seq<Incoming>, h': Host)
    requires WholeHeaders(batch) && h' == ReceiveAll(h, batch)
    ensures h'.received == h.received
    decreases |batch|
  {
    if batch != [] {
      var before := ReceiveAll(h, batch[..|batch| - 1]);
      BatchHandsOverNothing(h, batch[..|batch| - 1], before);
    }
  }

  lemma {:induction false} RoundsHandOverNothing(h: Host, k: nat, now: nat, h': Host)
    requires k <= |h.connections| && h' == UpdateUpTo(h, k, now)
    ensures h'.received == h.received
    decreases k
  {
    if k > 0 {
      var before := UpdateUpTo(h, k - 1, now);
      RoundsHandOverNothing(h, k - 1, now, before);
      StateTells(before, k - 1, now, UpdateState(before, k - 1, now));
    }
  }

  /** What waits at a peer is handed over, the reliable messages first, each queue in order, and nothing
      else; nothing waits afterwards, and exactly a peer with reliable messages to send has them to send in
      the next frame. */
  predicate HandsOver(st: PeerState, st': PeerState, before: seq<Handed>, after: seq<Handed>) {
    var (first, second) := (st.reliableToDeliver, st.unreliableToDeliver);
    && |after| == |before| + |first| + |second| && after[..|before|] == before
    && (forall j | 0 <= j < |first| :: after[|before| + j] == Handed(first[j], true))
    && (forall j | 0 <= j < |second| :: after[|before| + |first| + j] == Handed(second[j], false))
    && st' == st.(reliableToDeliver := [], unreliableToDeliver := [], hasReliable := |st.reliable| > 0)
  }

  /** Every update ends by handing over what waits at every peer, and hands over nothing else. */
  lemma UpdateHandsOver(h: Host, batch: seq<Incoming>, now: nat, id: ConnectionId, g: Host, r: Host)
    requires WholeHeaders(batch) && g == UpdateReceive(h, batch, now) && r == UpdateReceiveAll(h, batch, now)
    ensures r == g.(channels := r.channels, received := r.received) && r.channels.Keys == g.channels.Keys
    ensures if id in g.channels
            then HandsOver(g.channels[id], r.channels[id], LogOf(h.received, id), LogOf(r.received, id))
            else LogOf(r.received, id) == LogOf(h.received, id)
  {
    var h1 := ReceiveAll(h, batch);
    BatchHandsOverNothing(h, batch, h1);
    RoundsHandOverNothing(h1, |h1.connections|, now, UpdateUpTo(h1, |h1.connections|, now));
    assert g.received == h.received;
    FlushHandsOver(g, id, r);
  }

  lemma PeerHandsOver(st: PeerState, before: seq<Handed>)
    ensures HandsOver(st, Flush(st), before, before + HandedBy(st))
  {
  }

  lemma FlushHandsOver(g: Host, id: ConnectionId, r: Host)
    requires r == FlushHost(g)
    ensures r == g.(channels := r.channels, received := r.received) && r.channels.Keys == g.channels.Keys
    ensures if id in g.channels
            then HandsOver(g.channels[id], r.channels[id], LogOf(g.received, id), LogOf(r.received, id))
            else LogOf(r.received, id) == LogOf(g.received, id)
  {
    if id in g.channels {
      PeerHandsOver(g.channels[id], LogOf(g.received, id));
      assert LogOf(r.received, id) == LogOf(g.received, id) + HandedBy(g.channels[id]);
    } else {
      assert LogOf(g.received, id) + [] == LogOf(g.received, id);
    }
  }
}
