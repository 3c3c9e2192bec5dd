/** Which queued messages a frame writes, by their send times, and that no queued message is forgotten:
    every updateSend after an updateReceive writes each one that has not been sent for long enough
    (src/channel/ChannelManager.cpp:44-54 and 107-161). */
module Resending {
  import opened SequenceNumbers
  import opened Bytes
  import opened Packing
  import opened Channels
  import opened Connections
  import opened Lifecycle
  import opened SendFrames

  // ---------------------------------------------------------------------------------------------
  // One frame

  /** Packet `k` of the frame carries the message, and its record says so and notes the time. */
  predicate WrittenNow(m: ReliableMessage, m': ReliableMessage, packet: seq<Entry>, s: SequenceNumber, now: nat) {
    && Entry(m.sequenceNum, 1, m.message) in packet
    && m' == ReliableMessage(m.message, now, s, m.sequenceNum)
  }

  /** No packet of the frame carries a reliable message with this number. */
  predicate NotCarried(sequenceNum: SequenceNumber, frame: seq<seq<Entry>>) {
    forall k, j | 0 <= k < |frame| && 0 <= j < |frame[k]| ::
      frame[k][j].channelId == 1 ==> frame[k][j].sequenceNum != sequenceNum
  }

  predicate NumbersDiffer(q: seq<ReliableMessage>) {
    forall i, j | 0 <= i < j < |q| :: q[i].sequenceNum != q[j].sequenceNum
  }

  /** With the clock not at 0, a frame writes every queued message that was never sent or was last sent at
      least the delay ago, and leaves every other one alone: it is in no packet and keeps its record. */
  lemma FrameResends(st: PeerState, first: SequenceNumber, c: Clock, i: nat, f: (PeerState, seq<seq<Entry>>))
    requires LoopEnds(st, c) && c.now > 0 && c.resendAfter > 0 && f == Frame(st, first, c)
    requires (st.hasReliable || st.unreliable != []) && i < |st.reliable|
    ensures |f.0.reliable| == |st.reliable|
    ensures var (m, m') := (st.reliable[i], f.0.reliable[i]);
            if m.sentTimeMs == 0 || c.now - m.sentTimeMs >= c.resendAfter
            then exists k | 0 <= k < |f.1| :: WrittenNow(m, m', f.1[k], Wire(first + k), c.now)
            else m' == m && (NumbersDiffer(st.reliable) ==> NotCarried(m.sequenceNum, f.1))
  {
    var m := st.reliable[i];
    FrameIsComplete(st, first, c);
    if Due(m, c) {
      var k :| 0 <= k < |f.1| && EntryOf(m) in f.1[k]
            && f.0.reliable[i] == m.(sentTimeMs := c.now, packetSequenceNum := Wire(first + k));
      assert WrittenNow(m, f.0.reliable[i], f.1[k], Wire(first + k), c.now);
    } else if NumbersDiffer(st.reliable) {
      forall k, j | 0 <= k < |f.1| && 0 <= j < |f.1[k]| && f.1[k][j].channelId == 1
        ensures f.1[k][j].sequenceNum != m.sequenceNum
      {
        InFlattened(f.1, k, f.1[k][j]);
        FromDueMessage(st.reliable, c, f.1[k][j]);
      }
    }
  }

  lemma {:induction false} OnChannelMembers(entries: seq<Entry>, e: Entry)
    requires e in entries
    ensures e in OnChannel(entries, e.channelId)
  {
    if entries[0] != e { OnChannelMembers(entries[1..], e); }
  }

  lemma {:induction false} InFlattened(frame: seq<seq<Entry>>, k: nat, e: Entry)
    requires k < |frame| && e in frame[k]
    ensures e in OnChannel(Flatten(frame), e.channelId)
  {
    OnChannelConcat(frame[0], Flatten(frame[1..]), e.channelId);
    if k == 0 {
      OnChannelMembers(frame[0], e);
    } else {
      InFlattened(frame[1..], k - 1, e);
    }
  }

  /** Every entry comes from a message of the queue that is due. */
  lemma {:induction false} FromDueMessage(q: seq<ReliableMessage>, c: Clock, e: Entry)
    requires e in DueEntries(q, c)
    ensures exists i | 0 <= i < |q| :: Due(q[i], c) && e == EntryOf(q[i])
  {
    if !(Due(q[0], c) && e == EntryOf(q[0])) {
      FromDueMessage(q[1..], c, e);
      var i :| 0 <= i < |q[1..]| && Due(q[1..][i], c) && e == EntryOf(q[1..][i]);
      assert q[1..][i] == q[i + 1];
    }
  }

  // ---------------------------------------------------------------------------------------------
  // Over calls

  /** Among the packets sent since there were `from`, one to this address is a user packet under this
      sequence number that carries the entry. */
  ghost predicate SentSince(sent: seq<Outgoing>, from: nat, to: Address, s: SequenceNumber, e: Entry) {
    exists p, entries | from <= p < |sent| :: Carries(sent[p], to, s, entries) && e in entries
  }

  /** The message has been written into a new packet to its address, and its record names that packet and
      the time. */
  ghost predicate GoesOut(sent: seq<Outgoing>, from: nat, to: Address, m: ReliableMessage, m': ReliableMessage, now: nat) {
    && m' == m.(sentTimeMs := now, packetSequenceNum := m'.packetSequenceNum)
    && SentSince(sent, from, to, m'.packetSequenceNum, Entry(m.sequenceNum, 1, m.message))
  }

  lemma ConnectionIsServed(h: Host, c: Clock, i: nat, r: Host)
    requires Settled(h) && AllEnd(h, c) && c.now > 0 && r == UpdateSend(h, c)
    requires i < |h.connections| && h.connections[i].id in h.channels
    requires var st := h.channels[h.connections[i].id]; st.hasReliable || st.unreliable != []
    ensures ConnectionSent(h, i, c, r)
  {
    UpdateSendIsComplete(h, c);
    assert HasData(h, i);
  }

  /** updateSend, for one connection with something to send. */
  lemma SendingResends(h: Host, c: Clock, i: nat, j: nat, r: Host)
    requires Settled(h) && AllEnd(h, c) && c.now > 0 && r == UpdateSend(h, c)
    requires i < |h.connections| && h.connections[i].id in h.channels
    requires var st := h.channels[h.connections[i].id];
             (st.hasReliable || st.unreliable != []) && j < |st.reliable|
    ensures var id := h.connections[i].id;
            && id in r.channels && |r.channels[id].reliable| == |h.channels[id].reliable|
            && (var (m, m') := (h.channels[id].reliable[j], r.channels[id].reliable[j]);
                if m.sentTimeMs == 0 || c.now - m.sentTimeMs >= c.resendAfter
                then GoesOut(r.sent, |h.sent|, h.connections[i].address, m, m', c.now)
                else m' == m)
  {
    var id := h.connections[i].id;
    ConnectionIsServed(h, c, i, r);
    assert MessageSent(h, i, j, c, r);
    var (m, m') := (h.channels[id].reliable[j], r.channels[id].reliable[j]);
    if Due(m, c) {
      WrittenIsSent(r.sent, |h.sent|, |h.sent| + PacketCount(h, i, c), h.connections[i].address, h.packets[id].generator,
                    FrameOf(h, i, c).1, m, m', c);
    }
  }

  lemma WrittenIsSent(sent: seq<Outgoing>, from: nat, at: nat, to: Address, first: SequenceNumber, frame: seq<seq<Entry>>,
                      m: ReliableMessage, m': ReliableMessage, c: Clock)
    requires from <= at && CarryFrame(sent, at, to, first, frame) && WrittenIn(m, m', frame, first, c)
    ensures GoesOut(sent, from, to, m, m', c.now)
  {
    var k :| 0 <= k < |frame| && EntryOf(m) in frame[k] && m' == m.(sentTimeMs := c.now, packetSequenceNum := Wire(first + k));
    PacketIsSent(sent, from, at, to, first, frame, k, EntryOf(m));
  }

  /** updateReceive makes every queued message a candidate of the next frame, however often it was sent: the
      next updateSend writes every one of them that was never sent or last sent at least the delay ago, to
      the address of its connection, and no other. */
  lemma NextFrameResends(h: Host, batch: seq<Incoming>, t: nat, c: Clock, i: nat, j: nat, g: Host, r: Host)
    requires Settled(h) && WholeHeaders(batch) && g == UpdateReceiveAll(h, batch, t) && g.created <= 65536
    requires AllEnd(g, c) && c.now > 0 && r == UpdateSend(g, c)
    requires i < |g.connections| && g.connections[i].id in g.channels
    requires j < |g.channels[g.connections[i].id].reliable|
    ensures var id := g.connections[i].id;
            && id in r.channels && |r.channels[id].reliable| == |g.channels[id].reliable|
            && (var (m, m') := (g.channels[id].reliable[j], r.channels[id].reliable[j]);
                if m.sentTimeMs == 0 || c.now - m.sentTimeMs >= c.resendAfter
                then GoesOut(r.sent, |g.sent|, g.connections[i].address, m, m', c.now)
                else m' == m)
  {
    ReceivingSettles(h, batch, t);
    SendingResends(g, c, i, j, r);
  }

  /** A message just queued goes out in the next updateSend. */
  lemma NewMessageGoesOut(h: Host, message: Payload, c: Clock, i: nat, g: Host, r: Host)
    requires Settled(h) && i < |h.connections| && h.connections[i].id in h.channels && |message| <= 1336
    requires g == Queue(h, Unicast(h.connections[i].id), message, true)
    requires AllEnd(g, c) && c.now > 0 && r == UpdateSend(g, c)
    ensures var id := h.connections[i].id;
            var n := |h.channels[id].reliable|;
            && id in r.channels && |r.channels[id].reliable| == n + 1
            && r.channels[id].reliable[n].message == message && r.channels[id].reliable[n].sentTimeMs == c.now
            && SentSince(r.sent, |h.sent|, h.connections[i].address, r.channels[id].reliable[n].packetSequenceNum,
                         Entry(h.channels[id].generator, 1, message))
  {
    var id := h.connections[i].id;
    SameKeysKeepInv(h, g);
    assert g.channels[id] == Accept(h.channels[id], message, true);
    SendingResends(g, c, i, |h.channels[id].reliable|, r);
  }

  lemma {:induction false} FromPacket(frame: seq<seq<Entry>>, channel: Byte, e: Entry)
    requires e in OnChannel(Flatten(frame), channel)
    ensures exists k | 0 <= k < |frame| :: e in frame[k]
  {
    OnChannelConcat(frame[0], Flatten(frame[1..]), channel);
    if e in OnChannel(frame[0], channel) {
      OnChannelFrom(frame[0], channel, e);
    } else {
      FromPacket(frame[1..], channel, e);
      var k :| 0 <= k < |frame[1..]| && e in frame[1..][k];
      assert frame[k + 1] == frame[1..][k];
    }
  }

  lemma {:induction false} OnChannelFrom(entries: seq<Entry>, channel: Byte, e: Entry)
    requires e in OnChannel(entries, channel)
    ensures e in entries
  {
    if entries[0] != e { OnChannelFrom(entries[1..], channel, e); }
  }

  /** Every queued unreliable message goes out in a new packet, under the number 0 on channel 2. */
  lemma UnreliableGoesOut(h: Host, c: Clock, i: nat, j: nat, r: Host)
    requires Settled(h) && AllEnd(h, c) && c.now > 0 && r == UpdateSend(h, c)
    requires i < |h.connections| && h.connections[i].id in h.channels && j < |h.channels[h.connections[i].id].unreliable|
    ensures exists s :: SentSince(r.sent, |h.sent|, h.connections[i].address, s,
                                  Entry(0, 2, h.channels[h.connections[i].id].unreliable[j]))
  {
    var id := h.connections[i].id;
    ConnectionIsServed(h, c, i, r);
    var frame, e := FrameOf(h, i, c).1, Entry(0, 2, h.channels[id].unreliable[j]);
    assert UnreliableEntries(h.channels[id].unreliable)[j] == e;
    FromPacket(frame, 2, e);
    var k :| 0 <= k < |frame| && e in frame[k];
    PacketIsSent(r.sent, |h.sent|, |h.sent| + PacketCount(h, i, c), h.connections[i].address, h.packets[id].generator, frame, k, e);
  }

  lemma PacketIsSent(sent: seq<Outgoing>, from: nat, at: nat, to: Address, first: SequenceNumber, frame: seq<seq<Entry>>, k: nat, e: Entry)
    requires from <= at && CarryFrame(sent, at, to, first, frame) && k < |frame| && e in frame[k]
    ensures SentSince(sent, from, to, Wire(first as int + k), e)
  {
    assert Carries(sent[at + k], to, Wire(first as int + k), frame[k]);
  }

  /** updateSend leaves no connection with an unreliable message or a raised flag. */
  lemma NothingIsLeft(h: Host, c: Clock, i: nat, r: Host)
    requires Settled(h) && AllEnd(h, c) && r == UpdateSend(h, c)
    requires i < |h.connections| && h.connections[i].id in h.channels
    ensures var id := h.connections[i].id;
            id in r.channels && r.channels[id].unreliable == [] && !r.channels[id].hasReliable
  {
    UpdateSendIsComplete(h, c);
    SendUpToSends(h, |h.connections|, c, r);
    assert ConnectionOk(h, i, 0);
    assert !HasData(r, i);
  }
}
