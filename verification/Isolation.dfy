/** Connections of one host do not touch each other: what an update does to one of them, its peers included,
    is decided by that connection, its peers and its own packets.  So a disconnect spares all the others. */
module Isolation {
  import opened SequenceNumbers
  import opened Bytes
  import opened PacketAcks
  import opened Packing
  import opened Channels
  import opened Connections
  import opened Lifecycle
  import opened SingleConnections

  /** Two hosts keep the same for this id: both peers, what its user was told and what he was handed. */
  predicate AlikeFor(h: Host, g: Host, id: ConnectionId) {
    && (id in h.packets <==> id in g.packets) && (id in h.packets ==> h.packets[id] == g.packets[id])
    && (id in h.channels <==> id in g.channels) && (id in h.channels ==> h.channels[id] == g.channels[id])
    && LogOf(h.received, id) == LogOf(g.received, id) && Callbacks(h.events, id) == Callbacks(g.events, id)
  }

  /** The connection at `i` is the same in both hosts, and so is what they keep for it. */
  predicate AlikeAt(h: Host, g: Host, i: nat) {
    && h.isServer == g.isServer && i < |h.connections| && i < |g.connections|
    && h.connections[i] == g.connections[i] && AlikeFor(h, g, h.connections[i].id)
  }

  // ---------------------------------------------------------------------------------------------
  // One host: what happens to one connection leaves the others alone

  lemma RaisingLeaves(h: Host, k: nat, id: ConnectionId)
    requires k < |h.connections| && h.connections[k].id != id
    ensures AlikeFor(h, RaiseConnected(h, k), id) && AlikeFor(h, RaiseDisconnected(h, k), id)
  {
    OneMoreCallback(h.events, UpOf(h.connections[k]), id);
    OneMoreCallback(h.events, DownOf(h.connections[k]), id);
  }

  lemma ReadingLeaves(h: Host, k: nat, data: seq<Byte>, id: ConnectionId)
    requires k < |h.connections| && h.connections[k].id != id && |data| >= PACKET_HEADER_SIZE_BYTES
    ensures AlikeFor(h, ReadUserPacket(h, h.connections[k].id, data), id)
  {
  }

  lemma AlikeOn(a: Host, b: Host, c: Host, id: ConnectionId)
    requires AlikeFor(a, b, id) && AlikeFor(b, c, id)
    ensures AlikeFor(a, c, id)
  {
  }

  lemma OnlyConnectionsChange(h: Host, h': Host, id: ConnectionId)
    requires h' == h.(connections := h'.connections, sent := h'.sent, created := h'.created)
    ensures AlikeFor(h, h', id)
  {
  }

  lemma ReceiveLeaves(h: Host, p: Incoming, k: nat, id: ConnectionId, h': Host)
    requires |p.data| >= PACKET_HEADER_SIZE_BYTES && k == FindAddress(h.connections, p.from) && h' == Receive(h, p)
    requires k < |h.connections| ==> h.connections[k].id != id
    ensures AlikeFor(h, h', id)
  {
    if k == |h.connections| {
      StrangersPacket(h, p, h');
      OnlyConnectionsChange(h, h', id);
    } else if Kind(p.data) in {CONNECT_ACCEPT, HEARTBEAT} && h.connections[k].state.Requesting? {
      AnswerLeaves(h, k, p, id);
    } else if Kind(p.data) == USER_PACKET && h.connections[k].state.Connected? {
      UserPacketLeaves(h, k, p, id);
    } else {
      OtherPacketIsQuiet(h, p, k);
      OnlyConnectionsChange(h, h', id);
    }
  }

  lemma AnswerLeaves(h: Host, k: nat, p: Incoming, id: ConnectionId)
    requires k < |h.connections| && h.connections[k].id != id
    ensures AlikeFor(h, Heard(Accepted(h, k), k, p.at), id)
  {
    RaisingLeaves(SetState(h, k, Connected), k, id);
  }

  lemma UserPacketLeaves(h: Host, k: nat, p: Incoming, id: ConnectionId)
    requires k < |h.connections| && h.connections[k].id != id && |p.data| >= PACKET_HEADER_SIZE_BYTES
    ensures AlikeFor(h, OnUserPacket(h, k, p), id)
  {
    ReadingLeaves(h, k, p.data, id);
  }

  lemma StateLeaves(h: Host, k: nat, now: nat, id: ConnectionId, h': Host)
    requires k < |h.connections| && h.connections[k].id != id && h' == UpdateState(h, k, now)
    ensures AlikeFor(h, h', id) && h'.connections[k].id == h.connections[k].id
  {
    if h.connections[k].state.Deciding? {
      DecidingLeaves(h, k, now, id);
    } else {
      OtherRoundIsQuiet(h, k, now);
      OnlyConnectionsChange(h, h', id);
    }
  }

  /** What processDecidingConnectionState does before it raises the callback. */
  function Decided(h: Host, i: nat, now: nat): Host
    requires i < |h.connections|
  {
    var said := SendControl(h, i, CONNECT_ACCEPT);
    said.(connections := said.connections[i := said.connections[i].(heartbeatSentMs := now, state := Connected)])
  }

  lemma DecidingRaises(h: Host, i: nat, now: nat)
    requires i < |h.connections|
    ensures UpdateDeciding(h, i, now) == RaiseConnected(Decided(h, i, now), i)
  {
  }

  lemma DecidingLeaves(h: Host, k: nat, now: nat, id: ConnectionId)
    requires k < |h.connections| && h.connections[k].id != id
    ensures AlikeFor(h, UpdateDeciding(h, k, now), id) && UpdateDeciding(h, k, now).connections[k].id == h.connections[k].id
  {
    DecidingRaises(h, k, now);
    RaisingLeaves(Decided(h, k, now), k, id);
  }

  lemma RoundLeaves(h: Host, k: nat, now: nat, id: ConnectionId, h': Host)
    requires k < |h.connections| && h.connections[k].id != id && h' == UpdateOne(h, k, now)
    ensures AlikeFor(h, h', id)
  {
    var middle := UpdateState(h, k, now);
    StateLeaves(h, k, now, id, middle);
    RaisingLeaves(middle, k, id);
    AlikeOn(h, middle, h', id);
  }

  // ---------------------------------------------------------------------------------------------
  // Two hosts: alike at one connection, they stay so

  lemma AlikeSquare(h: Host, g: Host, h': Host, g': Host, i: nat)
    requires AlikeAt(h, g, i) && AlikeAt(h, h', i) && AlikeAt(g, g', i)
    ensures AlikeAt(h', g', i)
  {
  }

  /** Up and down do the same to both. */
  lemma RaisingAlike(h: Host, g: Host, i: nat)
    requires AlikeAt(h, g, i)
    ensures AlikeAt(RaiseConnected(h, i), RaiseConnected(g, i), i) && AlikeAt(RaiseDisconnected(h, i), RaiseDisconnected(g, i), i)
  {
    var c := h.connections[i];
    OneMoreCallback(h.events, UpOf(c), c.id);
    OneMoreCallback(g.events, UpOf(c), c.id);
    OneMoreCallback(h.events, DownOf(c), c.id);
    OneMoreCallback(g.events, DownOf(c), c.id);
  }

  lemma ReadingAlike(h: Host, g: Host, i: nat, data: seq<Byte>)
    requires AlikeAt(h, g, i) && |data| >= PACKET_HEADER_SIZE_BYTES
    ensures AlikeAt(ReadUserPacket(h, h.connections[i].id, data), ReadUserPacket(g, h.connections[i].id, data), i)
  {
    var id := h.connections[i].id;
    MessagesAlike(h, g, i, data);
    HeaderAlike(ReadMessages(h, id, data), ReadMessages(g, id, data), i, GetPacketHeader(data));
  }

  lemma MessagesAlike(h: Host, g: Host, i: nat, data: seq<Byte>)
    requires AlikeAt(h, g, i)
    ensures AlikeAt(ReadMessages(h, h.connections[i].id, data), ReadMessages(g, h.connections[i].id, data), i)
  {
  }

  lemma HeaderAlike(h: Host, g: Host, i: nat, header: PacketHeader)
    requires AlikeAt(h, g, i)
    ensures AlikeAt(ReadHeader(h, h.connections[i].id, header), ReadHeader(g, h.connections[i].id, header), i)
  {
    var id := h.connections[i].id;
    if id in h.packets {
      var r := ReceiveHeader(h.packets[id], header.sequenceNum, header.ack, header.ackBits);
      var (h1, g1) := (h.(packets := h.packets[id := r.0]), g.(packets := g.packets[id := r.0]));
      assert AlikeAt(h1, g1, i);
      if r.1 != {} && id in h.channels {
        var st := RemoveAcked(h1.channels[id], r.1);
        ChannelAlike(h1, g1, i, st);
      }
    }
  }

  lemma ChannelAlike(h: Host, g: Host, i: nat, st: PeerState)
    requires AlikeAt(h, g, i)
    ensures var id := h.connections[i].id;
            AlikeAt(h.(channels := h.channels[id := st]), g.(channels := g.channels[id := st]), i)
  {
  }

  lemma QuietAlike(h: Host, g: Host, i: nat, h': Host, g': Host)
    requires AlikeAt(h, g, i) && Quiet(h, h', i) && Quiet(g, g', i) && h'.connections[i] == g'.connections[i]
    ensures AlikeAt(h', g', i)
  {
  }

  lemma ReplacingAlike(h: Host, g: Host, i: nat, c: Connection)
    requires AlikeAt(h, g, i) && c.id == h.connections[i].id
    ensures AlikeAt(h.(connections := h.connections[i := c]), g.(connections := g.connections[i := c]), i)
  {
  }

  lemma AnswerAlike(h: Host, g: Host, i: nat, at: nat)
    requires AlikeAt(h, g, i)
    ensures AlikeAt(Heard(Accepted(h, i), i, at), Heard(Accepted(g, i), i, at), i)
  {
    var (h1, g1) := (SetState(h, i, Connected), SetState(g, i, Connected));
    ReplacingAlike(h, g, i, h.connections[i].(state := Connected));
    RaisingAlike(h1, g1, i);
    var (h2, g2) := (RaiseConnected(h1, i), RaiseConnected(g1, i));
    ReplacingAlike(h2, g2, i, h2.connections[i].(accepted := true));
    HeardAlike(Accepted(h, i), Accepted(g, i), i, at);
  }

  lemma HeardAlike(h: Host, g: Host, i: nat, at: nat)
    requires AlikeAt(h, g, i)
    ensures AlikeAt(Heard(h, i, at), Heard(g, i, at), i)
  {
  }

  lemma OwnPacketAlike(h: Host, g: Host, i: nat, p: Incoming, h': Host, g': Host)
    requires AlikeAt(h, g, i) && |p.data| >= PACKET_HEADER_SIZE_BYTES
    requires FindAddress(h.connections, p.from) == i == FindAddress(g.connections, p.from)
    requires h' == Receive(h, p) && g' == Receive(g, p)
    ensures AlikeAt(h', g', i)
  {
    if Kind(p.data) in {CONNECT_ACCEPT, HEARTBEAT} && h.connections[i].state.Requesting? {
      AnswerAlike(h, g, i, p.at);
    } else if Kind(p.data) == USER_PACKET && h.connections[i].state.Connected? {
      ReadingAlike(h, g, i, p.data);
      HeardAlike(ReadUserPacket(h, h.connections[i].id, p.data), ReadUserPacket(g, h.connections[i].id, p.data), i, p.at);
    } else {
      OtherPacketIsQuiet(h, p, i);
      OtherPacketIsQuiet(g, p, i);
      OwnPacketIsHeard(h, p, i, h');
      OwnPacketIsHeard(g, p, i, g');
      QuietAlike(h, g, i, h', g');
    }
  }

  lemma PacketAlike(h: Host, g: Host, i: nat, p: Incoming, h': Host, g': Host)
    requires AlikeAt(h, g, i) && |p.data| >= PACKET_HEADER_SIZE_BYTES && Distinct(h.connections) && Distinct(g.connections)
    requires h' == Receive(h, p) && g' == Receive(g, p)
    ensures AlikeAt(h', g', i)
  {
    var c := h.connections[i];
    var k, l := FindAddress(h.connections, p.from), FindAddress(g.connections, p.from);
    if p.from == c.address {
      FoundAt(h.connections, i);
      FoundAt(g.connections, i);
      OwnPacketAlike(h, g, i, p, h', g');
    } else {
      ReceiveIsHeard(h, p, i, h');
      ReceiveIsHeard(g, p, i, g');
      ReceiveLeaves(h, p, k, c.id, h');
      ReceiveLeaves(g, p, l, c.id, g');
    }
  }

  lemma {:induction false} BatchAlike(h: Host, g: Host, i: nat, batch: seq<Incoming>, h': Host, g': Host)
    requires AlikeAt(h, g, i) && WholeHeaders(batch) && InvAt(h, 0) && InvAt(g, 0)
    requires h' == ReceiveAll(h, batch) && g' == ReceiveAll(g, batch) && h'.created <= 65536 && g'.created <= 65536
    ensures AlikeAt(h', g', i)
    decreases |batch|
  {
    if batch != [] {
      var most, p := batch[..|batch| - 1], batch[|batch| - 1];
      var (h1, g1) := (ReceiveAll(h, most), ReceiveAll(g, most));
      ReceiveAllKeepsInv(h, most);
      ReceiveAllKeepsInv(g, most);
      BatchAlike(h, g, i, most, h1, g1);
      PacketAlike(h1, g1, i, p, h', g');
    }
  }

  lemma DecidingAlike(h: Host, g: Host, i: nat, now: nat)
    requires AlikeAt(h, g, i)
    ensures AlikeAt(UpdateDeciding(h, i, now), UpdateDeciding(g, i, now), i)
  {
    DecidingRaises(h, i, now);
    DecidingRaises(g, i, now);
    RaisingAlike(Decided(h, i, now), Decided(g, i, now), i);
  }

  lemma StateAlike(h: Host, g: Host, i: nat, now: nat)
    requires AlikeAt(h, g, i)
    ensures AlikeAt(UpdateState(h, i, now), UpdateState(g, i, now), i)
  {
    if h.connections[i].state.Deciding? {
      DecidingAlike(h, g, i, now);
    } else {
      OtherRoundIsQuiet(h, i, now);
      OtherRoundIsQuiet(g, i, now);
      StateAges(h, i, now, UpdateState(h, i, now));
      StateAges(g, i, now, UpdateState(g, i, now));
      QuietAlike(h, g, i, UpdateState(h, i, now), UpdateState(g, i, now));
    }
  }

  lemma RoundAlike(h: Host, g: Host, i: nat, now: nat)
    requires AlikeAt(h, g, i)
    ensures AlikeAt(UpdateOne(h, i, now), UpdateOne(g, i, now), i)
  {
    StateAlike(h, g, i, now);
    RaisingAlike(UpdateState(h, i, now), UpdateState(g, i, now), i);
  }

  lemma AlikeInTurn(a: Host, b: Host, c: Host, i: nat)
    requires AlikeAt(a, b, i) && AlikeAt(b, c, i)
    ensures AlikeAt(a, c, i)
  {
  }

  /** What was like `start` after `k` rounds is so after one more. */
  lemma NextRoundLeaves(h: Host, i: nat, k: nat, now: nat, start: Host, before: Host, h': Host)
    requires InvAt(h, 0) && i < |h.connections| && k < |h.connections| && k != i
    requires before == UpdateUpTo(h, k, now) && h' == UpdateUpTo(h, k + 1, now) && AlikeAt(start, before, i)
    ensures AlikeAt(start, h', i)
  {
    UpdateUpToKeepsInv(h, k, now);
    OtherRoundLeaves(before, i, k, now, h');
    AlikeInTurn(start, before, h', i);
  }

  /** The rounds before that of the connection at `i` leave it alone. */
  lemma {:induction false} EarlierRoundsLeave(h: Host, i: nat, k: nat, now: nat, h': Host)
    requires InvAt(h, 0) && k <= i < |h.connections| && h' == UpdateUpTo(h, k, now)
    ensures AlikeAt(h, h', i)
    decreases k
  {
    if k > 0 {
      var before := UpdateUpTo(h, k - 1, now);
      EarlierRoundsLeave(h, i, k - 1, now, before);
      NextRoundLeaves(h, i, k - 1, now, h, before, h');
    }
  }

  /** So do the rounds after it. */
  lemma {:induction false} LaterRoundsLeave(h: Host, i: nat, k: nat, now: nat, own: Host, h': Host)
    requires InvAt(h, 0) && i < k <= |h.connections| && own == UpdateUpTo(h, i + 1, now) && h' == UpdateUpTo(h, k, now)
    ensures AlikeAt(own, h', i)
    decreases k
  {
    if k > i + 1 {
      var before := UpdateUpTo(h, k - 1, now);
      LaterRoundsLeave(h, i, k - 1, now, own, before);
      NextRoundLeaves(h, i, k - 1, now, own, before, h');
    }
  }

  lemma OtherRoundLeaves(h: Host, i: nat, k: nat, now: nat, h': Host)
    requires Distinct(h.connections) && i < |h.connections| && k < |h.connections| && h' == UpdateOne(h, k, now)
    ensures h'.isServer == h.isServer
    ensures k != i ==> AlikeAt(h, h', i)
  {
    StateTells(h, k, now, UpdateState(h, k, now));
    if k != i {
      RoundAges(h, k, now, i, h');
      RoundLeaves(h, k, now, h.connections[i].id, h');
    }
  }

  lemma FlushAlike(h: Host, g: Host, id: ConnectionId)
    requires AlikeFor(h, g, id)
    ensures AlikeFor(FlushHost(h), FlushHost(g), id)
  {
    assert LogOf(h.received, id) + [] == LogOf(h.received, id);
  }

  /** Two hosts that are alike at one connection, whatever else they have, are so after the same update:
      the same becomes of the connection and of both its peers, the user is told and handed the same, and the
      same packets go to its address. */
  lemma UpdateIsIsolated(h: Host, g: Host, i: nat, batch: seq<Incoming>, now: nat, h': Host, g': Host)
    requires Settled(h) && Settled(g) && AlikeAt(h, g, i) && WholeHeaders(batch)
    requires h' == UpdateReceiveAll(h, batch, now) && h'.created <= 65536
    requires g' == UpdateReceiveAll(g, batch, now) && g'.created <= 65536
    ensures var c := h.connections[i];
            var heard := HearsAll(c, batch);
            && AlikeFor(h', g', c.id) && Became(h', Ages(heard, now)) && Became(g', Ages(heard, now))
            && SentTo(h'.sent, c.address) == SentTo(h.sent, c.address) + Says(heard, now)
            && SentTo(g'.sent, c.address) == SentTo(g.sent, c.address) + Says(heard, now)
  {
    var id := h.connections[i].id;
    var (h1, g1) := (ReceiveAll(h, batch), ReceiveAll(g, batch));
    var (h2, g2) := (UpdateUpTo(h1, |h1.connections|, now), UpdateUpTo(g1, |g1.connections|, now));
    KeepsIdentity(h.connections[i], batch);
    UpdateReceiveOnOne(h, batch, now, i, h');
    UpdateReceiveOnOne(g, batch, now, i, g');
    BatchAlike(h, g, i, batch, h1, g1);
    BatchIsHeard(h, batch, i, h1);
    ReceiveAllKeepsInv(h, batch);
    ReceiveAllKeepsInv(g, batch);
    RoundsAlike(h1, g1, i, now, h2, g2);
    FlushAlike(EraseDisconnected(h2), EraseDisconnected(g2), id);
  }

  /** The states before and after the round of the connection at `i`. */
  lemma RoundsAround(h: Host, i: nat, now: nat, h': Host) returns (h1: Host, h2: Host)
    requires InvAt(h, 0) && i < |h.connections| && h' == UpdateUpTo(h, |h.connections|, now)
    ensures AlikeAt(h, h1, i) && h2 == UpdateOne(h1, i, now) && AlikeAt(h2, h', i)
    ensures h'.connections[i].id == h.connections[i].id
  {
    h1, h2 := UpdateUpTo(h, i, now), UpdateUpTo(h, i + 1, now);
    EarlierRoundsLeave(h, i, i, now, h1);
    LaterRoundsLeave(h, i, |h.connections|, now, h2, h');
    RoundsKeepId(h, i, now, h');
  }

  lemma RoundsKeepId(h: Host, i: nat, now: nat, h': Host)
    requires InvAt(h, 0) && i < |h.connections| && h' == UpdateUpTo(h, |h.connections|, now)
    ensures h'.connections[i].id == h.connections[i].id
  {
    UpdateAges(h, |h.connections|, now, i, h');
  }

  lemma RoundsAlike(h: Host, g: Host, i: nat, now: nat, h': Host, g': Host)
    requires InvAt(h, 0) && InvAt(g, 0) && AlikeAt(h, g, i)
    requires h' == UpdateUpTo(h, |h.connections|, now) && g' == UpdateUpTo(g, |g.connections|, now)
    ensures AlikeFor(h', g', h.connections[i].id)
  {
    var h1, h2 := RoundsAround(h, i, now, h');
    var g1, g2 := RoundsAround(g, i, now, g');
    OwnRoundAlike(h, g, i, now, h1, g1, h2, g2, h', g');
  }

  lemma OwnRoundAlike(h: Host, g: Host, i: nat, now: nat, h1: Host, g1: Host, h2: Host, g2: Host, h': Host, g': Host)
    requires AlikeAt(h, g, i) && AlikeAt(h, h1, i) && AlikeAt(g, g1, i) && AlikeAt(h2, h', i) && AlikeAt(g2, g', i)
    requires h2 == UpdateOne(h1, i, now) && g2 == UpdateOne(g1, i, now)
    ensures AlikeAt(h', g', i)
  {
    AlikeSquare(h, g, h1, g1, i);
    RoundAlike(h1, g1, i, now);
    AlikeSquare(h2, g2, h', g', i);
  }

  /** On a server, disconnecting one id spares every connection with another: it keeps its record and its
      peers, and the next update makes of it, sends to it, tells and hands its user exactly what the same
      update does without the disconnect. */
  lemma DisconnectSparesOthers(h: Host, id: ConnectionId, batch: seq<Incoming>, now: nat, i: nat, left: Host, h': Host, g': Host)
    requires Settled(h) && h.isServer && id != 65535 && i < |h.connections| && h.connections[i].id != id
    requires left == Disconnect(h, id) && WholeHeaders(batch)
    requires h' == UpdateReceiveAll(h, batch, now) && h'.created <= 65536
    requires g' == UpdateReceiveAll(left, batch, now) && g'.created <= 65536
    ensures left == h.(connections := left.connections) && |left.connections| == |h.connections|
    ensures left.connections[i] == h.connections[i]
    ensures var c := h.connections[i];
            && AlikeFor(h', g', c.id) && (forall c': Connection | c'.id == c.id :: c' in h'.connections <==> c' in g'.connections)
            && SentTo(g'.sent, c.address) == SentTo(h'.sent, c.address)
  {
    DisconnectSettles(h, id);
    DisconnectLeaves(h, id, i, left);
    UpdatesAlike(h, left, i, batch, now, h', g');
    assert SentTo(left.sent, h.connections[i].address) == SentTo(h.sent, h.connections[i].address);
  }

  /** As `UpdateIsIsolated`, without saying what it is that becomes of the connection. */
  lemma UpdatesAlike(h: Host, g: Host, i: nat, batch: seq<Incoming>, now: nat, h': Host, g': Host)
    requires Settled(h) && Settled(g) && AlikeAt(h, g, i) && WholeHeaders(batch)
    requires h' == UpdateReceiveAll(h, batch, now) && h'.created <= 65536
    requires g' == UpdateReceiveAll(g, batch, now) && g'.created <= 65536
    ensures var c := h.connections[i];
            && AlikeFor(h', g', c.id) && (forall c': Connection | c'.id == c.id :: c' in h'.connections <==> c' in g'.connections)
            && (SentTo(g.sent, c.address) == SentTo(h.sent, c.address) ==> SentTo(g'.sent, c.address) == SentTo(h'.sent, c.address))
  {
    var after := Ages(HearsAll(h.connections[i], batch), now);
    UpdateIsIsolated(h, g, i, batch, now, h', g');
    KeepsIdentity(h.connections[i], batch);
    SettledTwice(h, g, batch, now, h', g');
    BecameTheSame(h', g', after);
  }

  lemma SettledTwice(h: Host, g: Host, batch: seq<Incoming>, now: nat, h': Host, g': Host)
    requires Settled(h) && Settled(g) && WholeHeaders(batch)
    requires h' == UpdateReceiveAll(h, batch, now) && h'.created <= 65536
    requires g' == UpdateReceiveAll(g, batch, now) && g'.created <= 65536
    ensures Distinct(h'.connections) && Distinct(g'.connections)
  {
    ReceivingSettles(h, batch, now);
    ReceivingSettles(g, batch, now);
  }

  lemma BecameTheSame(h: Host, g: Host, c: Connection)
    requires Distinct(h.connections) && Distinct(g.connections) && Became(h, c) && Became(g, c)
    ensures forall c': Connection | c'.id == c.id :: c' in h.connections <==> c' in g.connections
  {
    OnlyOneHas(h.connections, c);
    OnlyOneHas(g.connections, c);
  }

  lemma DisconnectLeaves(h: Host, id: ConnectionId, i: nat, left: Host)
    requires h.isServer && id != 65535 && i < |h.connections| && h.connections[i].id != id && left == Disconnect(h, id)
    ensures left == h.(connections := left.connections) && |left.connections| == |h.connections|
    ensures left.connections[i] == h.connections[i] && AlikeAt(h, left, i)
  {
  }

  /** At most one connection has the id. */
  lemma OnlyOneHas(cs: seq<Connection>, c: Connection)
    requires Distinct(cs) && (c in cs || !Has(cs, c.id))
    ensures forall c': Connection | c'.id == c.id :: c' in cs <==> c' == c && c in cs
  {
  }
}
