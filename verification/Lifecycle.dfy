/** What every run of one host keeps: identities, callbacks and peer tables of its connections. */
module Lifecycle {
  import opened SequenceNumbers
  import opened Bytes
  import opened Packing
  import opened Channels
  import opened Connections

  // ---------------------------------------------------------------------------------------------
  // Runs

  /** A call of the interface; `SendRound` is one round of updateSend's loop, `SendDone` what follows it. */
  datatype Call =
    | ConnectTo(address: Address)
    | DisconnectFrom(id: ConnectionId)
    | Receiving(batch: seq<Incoming>, now: nat)
    | Sending(target: Target, message: Payload, isReliable: bool)
    | SendRound(i: nat, c: Clock)
    | SendDone(i: nat, now: nat)

  function Do(h: Host, call: Call): Host {
    match call
    case ConnectTo(address) => Connect(h, address)
    case DisconnectFrom(id) => Disconnect(h, id)
    case Receiving(batch, now) => if WholeHeaders(batch) then UpdateReceiveAll(h, batch, now) else h
    case Sending(target, message, isReliable) => Queue(h, target, message, isReliable)
    case SendRound(i, c) => if i < |h.connections| && HasData(h, i) then SendPass(h, i, c) else h
    case SendDone(i, now) => if i < |h.connections| then MarkSent(h, i, now) else h
  }

  function DoAll(h: Host, calls: seq<Call>): Host {
    if calls == [] then h else Do(DoAll(h, calls[..|calls| - 1]), calls[|calls| - 1])
  }

  // ---------------------------------------------------------------------------------------------
  // Invariant

  /** The generator wraps to id 0 at the 65536th connection. */
  function Number(id: ConnectionId): nat {
    if id == 0 then 65536 else id
  }

  /** The callbacks made for one id, oldest first. */
  function Callbacks(events: seq<Callback>, id: ConnectionId): seq<Callback> {
    if events == [] then []
    else
      var last := events[|events| - 1];
      Callbacks(events[..|events| - 1], id) + (if last.id == id then [last] else [])
  }

  /** Up and not yet reported down, in an update that has passed the first `k` connections. */
  predicate Live(h: Host, i: nat, k: nat)
    requires i < |h.connections|
  {
    h.connections[i].wasConnected && !(i < k && h.connections[i].state.Disconnected?)
  }

  predicate InTables(h: Host, id: ConnectionId) {
    id in h.packets && id in h.channels
  }

  predicate InNoTable(h: Host, id: ConnectionId) {
    id !in h.packets && id !in h.channels
  }

  /** The callbacks that tell of a connection, by id and address. */
  function UpOf(c: Connection): Callback {
    Callback(Up, c.id, c.address)
  }

  function DownOf(c: Connection): Callback {
    Callback(Down, c.id, c.address)
  }

  function Told(c: Connection, gone: bool): seq<Callback> {
    if !c.wasConnected then [] else if gone then [UpOf(c), DownOf(c)] else [UpOf(c)]
  }

  /** Up, then down, both with one address. */
  predicate UpThenDown(told: seq<Callback>, id: ConnectionId) {
    |told| == 2 && told == [Callback(Up, id, told[0].address), Callback(Down, id, told[0].address)]
  }

  /** What holds of the connection at `i`. */
  predicate ConnectionOk(h: Host, i: nat, k: nat)
    requires i < |h.connections|
  {
    var c := h.connections[i];
    && Number(c.id) <= h.created
    && (c.state.Connected? ==> c.wasConnected)
    && (c.state.Requesting? ==> !c.wasConnected && !c.accepted && !h.isServer)
    && (c.state.Deciding? ==> !c.wasConnected && h.isServer)
    && (if Live(h, i, k) then InTables(h, c.id) else InNoTable(h, c.id))
    && Callbacks(h.events, c.id) == Told(c, i < k && c.state.Disconnected?)
    && (!c.wasConnected ==> c.id !in h.received)
  }

  /** What holds of an id that no connection has: never used, or used and done with. */
  predicate GoneOk(h: Host, id: ConnectionId) {
    && InNoTable(h, id)
    && (if Callbacks(h.events, id) == [] then id !in h.received
        else Number(id) <= h.created && UpThenDown(Callbacks(h.events, id), id))
  }

  predicate Distinct(cs: seq<Connection>) {
    forall i, j | 0 <= i < j < |cs| :: cs[i].id != cs[j].id && cs[i].address != cs[j].address
  }

  predicate Has(cs: seq<Connection>, id: ConnectionId) {
    exists i | 0 <= i < |cs| :: cs[i].id == id
  }

  predicate InvAt(h: Host, k: nat) {
    && Distinct(h.connections)
    && (forall i | 0 <= i < |h.connections| :: ConnectionOk(h, i, k))
    && (forall id: ConnectionId | !Has(h.connections, id) :: GoneOk(h, id))
  }

  /** Between calls: nothing is left to erase. */
  predicate Settled(h: Host) {
    && InvAt(h, 0)
    && (forall i | 0 <= i < |h.connections| :: !h.connections[i].state.Disconnected?)
  }

  // ---------------------------------------------------------------------------------------------
  // Changes at one position

  /** Nothing but the connection at `i`, and what is kept for its id, has changed. */
  predicate SameElsewhere(h: Host, h': Host, i: nat) {
    && h'.isServer == h.isServer && h'.created == h.created
    && i < |h.connections| == |h'.connections|
    && h'.connections[i].id == h.connections[i].id && h'.connections[i].address == h.connections[i].address
    && (forall j | 0 <= j < |h.connections| && j != i :: h'.connections[j] == h.connections[j])
    && (forall id: ConnectionId | id != h.connections[i].id ::
          SameFor(h, h', id))
  }

  predicate SameFor(h: Host, h': Host, id: ConnectionId) {
    && (id in h'.packets <==> id in h.packets) && (id in h'.channels <==> id in h.channels)
    && (id in h'.received <==> id in h.received) && Callbacks(h'.events, id) == Callbacks(h.events, id)
  }

  lemma ChangeKeepsInv(h: Host, h': Host, i: nat, k: nat, k': nat)
    requires InvAt(h, k) && SameElsewhere(h, h', i) && ConnectionOk(h', i, k')
    requires k' == k || (k' == k + 1 && i == k)
    ensures InvAt(h', k')
  {
    forall j | 0 <= j < |h'.connections|
      ensures ConnectionOk(h', j, k')
    {
      if j != i {
        assert ConnectionOk(h, j, k);
        assert h.connections[j].id != h.connections[i].id;
        assert SameFor(h, h', h.connections[j].id);
      }
    }
    forall id: ConnectionId | !Has(h'.connections, id)
      ensures GoneOk(h', id)
    {
      assert forall j | 0 <= j < |h.connections| :: h'.connections[j].id == h.connections[j].id;
      assert !Has(h.connections, id);
      assert GoneOk(h, id) && SameFor(h, h', id);
    }
  }

  lemma OneMoreCallback(events: seq<Callback>, e: Callback, id: ConnectionId)
    ensures Callbacks(events + [e], id) == Callbacks(events, id) + (if e.id == id then [e] else [])
  {
  }

  /** The states only move on: a connection never requests or decides again, comes up only from there,
      and once left, being connected is over. */
  function Stage(s: ConnectionState): nat {
    match s
    case Requesting | Deciding => 0
    case Connected | Failed => 1
    case Disconnecting => 2
    case Disconnected => 3
  }

  predicate Onward(c: Connection, c': Connection) {
    && c'.id == c.id && c'.address == c.address
    && Stage(c.state) <= Stage(c'.state)
    && (Stage(c.state) == Stage(c'.state) ==> c'.state == c.state)
    && (c.wasConnected ==> c'.wasConnected)
    && (c'.wasConnected && !c.wasConnected ==> Stage(c.state) == 0)
  }

  predicate SentMore(h: Host, h': Host) {
    |h.sent| <= |h'.sent| && h'.sent[..|h.sent|] == h.sent
  }

  /** A change of the connection at `i` that raises no callback. */
  predicate Quiet(h: Host, h': Host, i: nat) {
    && h' == h.(connections := h'.connections, sent := h'.sent) && SentMore(h, h')
    && i < |h.connections| == |h'.connections| && h'.connections == h.connections[i := h'.connections[i]]
    && Onward(h.connections[i], h'.connections[i])
    && h'.connections[i].wasConnected == h.connections[i].wasConnected
    && h'.connections[i].accepted == h.connections[i].accepted
    && (h'.connections[i].state.Connected? ==> h.connections[i].state.Connected?)
  }

  lemma QuietKeepsInv(h: Host, h': Host, i: nat, k: nat)
    requires InvAt(h, k) && Quiet(h, h', i) && k <= i
    ensures InvAt(h', k)
  {
    assert ConnectionOk(h, i, k);
    assert ConnectionOk(h', i, k);
    ChangeKeepsInv(h, h', i, k, k);
  }

  /** The connection at `i` comes up. */
  predicate ComesUp(h: Host, h': Host, i: nat) {
    && i < |h.connections| == |h'.connections|
    && (var c := h.connections[i];
        var c' := c.(state := Connected, wasConnected := true, accepted := h'.connections[i].accepted,
                     heartbeatSentMs := h'.connections[i].heartbeatSentMs,
                     heartbeatReceivedMs := h'.connections[i].heartbeatReceivedMs);
        && h'.connections == h.connections[i := c']
        && h' == h.(connections := h'.connections, sent := h'.sent, events := h.events + [Callback(Up, c.id, c.address)],
                    packets := h'.packets, channels := h'.channels)
        && h'.packets.Keys == h.packets.Keys + {c.id} && h'.channels.Keys == h.channels.Keys + {c.id}
        && SentMore(h, h'))
  }

  lemma ComingUpKeepsInv(h: Host, h': Host, i: nat, k: nat)
    requires InvAt(h, k) && k <= i && ComesUp(h, h', i)
    requires Stage(h.connections[i].state) == 0
    ensures InvAt(h', k)
  {
    var c := h.connections[i];
    assert forall id :: id in h'.packets <==> id in h.packets.Keys + {c.id};
    assert forall id :: id in h'.channels <==> id in h.channels.Keys + {c.id};
    assert ConnectionOk(h, i, k);
    OneMoreCallback(h.events, Callback(Up, c.id, c.address), c.id);
    forall id: ConnectionId | id != c.id
      ensures SameFor(h, h', id)
    {
      OneMoreCallback(h.events, Callback(Up, c.id, c.address), id);
    }
    assert ConnectionOk(h', i, k);
    ChangeKeepsInv(h, h', i, k, k);
  }

  /** The end of a round of updateConnections. */
  lemma RoundEndKeepsInv(h: Host, i: nat)
    requires i < |h.connections| && InvAt(h, i)
    ensures InvAt(FinishRound(h, i), i + 1)
  {
    var c := h.connections[i];
    var h' := FinishRound(h, i);
    assert ConnectionOk(h, i, i);
    if h' != h {
      OneMoreCallback(h.events, Callback(Down, c.id, c.address), c.id);
      forall id: ConnectionId | id != c.id
        ensures SameFor(h, h', id)
      {
        OneMoreCallback(h.events, Callback(Down, c.id, c.address), id);
      }
    }
    assert ConnectionOk(h', i, i + 1);
    ChangeKeepsInv(h, h', i, i, i + 1);
  }

  // ---------------------------------------------------------------------------------------------
  // Updates

  lemma DecidingComesUp(h: Host, i: nat, now: nat)
    requires i < |h.connections| && h.connections[i].state.Deciding?
    ensures ComesUp(h, UpdateState(h, i, now), i)
  {
  }

  lemma RequestingIsQuiet(h: Host, i: nat, now: nat)
    requires i < |h.connections| && h.connections[i].state.Requesting?
    ensures Quiet(h, UpdateRequesting(h, i, now), i)
  {
  }

  lemma ConnectedIsQuiet(h: Host, i: nat, now: nat)
    requires i < |h.connections| && h.connections[i].state.Connected?
    ensures Quiet(h, UpdateConnected(h, i, now), i)
  {
    var c := h.connections[i];
    var c1 := if Elapsed(now, c.heartbeatSentMs) > TIME_AFTER_SEND_HEARTBEAT_MS then c.(heartbeatSentMs := now) else c;
    assert h.connections[i := c1][i := c1.(state := Disconnected)] == h.connections[i := c1.(state := Disconnected)];
  }

  lemma OtherRoundIsQuiet(h: Host, i: nat, now: nat)
    requires i < |h.connections| && !h.connections[i].state.Deciding?
    ensures Quiet(h, UpdateState(h, i, now), i)
  {
    match h.connections[i].state
    case Requesting => RequestingIsQuiet(h, i, now);
    case Connected => ConnectedIsQuiet(h, i, now);
    case _ =>
  }

  lemma UpdateStateKeepsInv(h: Host, i: nat, now: nat, h': Host)
    requires i < |h.connections| && InvAt(h, i) && h' == UpdateState(h, i, now)
    ensures InvAt(h', i)
  {
    assert ConnectionOk(h, i, i);
    if h.connections[i].state.Deciding? {
      DecidingComesUp(h, i, now);
      ComingUpKeepsInv(h, h', i, i);
    } else {
      OtherRoundIsQuiet(h, i, now);
      QuietKeepsInv(h, h', i, i);
    }
  }

  lemma UpdateOneKeepsInv(h: Host, i: nat, now: nat, h': Host)
    requires i < |h.connections| && InvAt(h, i) && h' == UpdateOne(h, i, now)
    ensures InvAt(h', i + 1)
  {
    UpdateStateKeepsInv(h, i, now, UpdateState(h, i, now));
    RoundEndKeepsInv(UpdateState(h, i, now), i);
  }

  lemma {:induction false} UpdateUpToKeepsInv(h: Host, k: nat, now: nat)
    requires k <= |h.connections| && InvAt(h, 0)
    ensures InvAt(UpdateUpTo(h, k, now), k)
  {
    if k > 0 {
      var before := UpdateUpTo(h, k - 1, now);
      UpdateUpToKeepsInv(h, k - 1, now);
      UpdateOneKeepsInv(before, k - 1, now, UpdateOne(before, k - 1, now));
    }
  }

  lemma {:induction false} RemainingMembers(cs: seq<Connection>)
    ensures forall c :: c in Remaining(cs) <==> c in cs && !c.state.Disconnected?
    ensures Distinct(cs) ==> Distinct(Remaining(cs))
  {
    if cs != [] {
      var most, last := cs[..|cs| - 1], cs[|cs| - 1];
      assert cs == most + [last];
      RemainingMembers(most);
      if Distinct(cs) {
        assert Distinct(most);
        forall i | 0 <= i < |Remaining(most)|
          ensures Remaining(most)[i].id != last.id && Remaining(most)[i].address != last.address
        {
          assert Remaining(most)[i] in most;
          var j :| 0 <= j < |most| && most[j] == Remaining(most)[i];
          assert cs[j] == most[j];
        }
      }
    }
  }

  /** What remains are the connections at exactly these positions, in their old order. */
  predicate StayInOrder(cs: seq<Connection>, positions: seq<nat>, cs': seq<Connection>) {
    && |cs'| == |positions|
    && (forall a, b | 0 <= a < b < |positions| :: positions[a] < positions[b])
    && (forall a | 0 <= a < |positions| :: positions[a] < |cs| && cs'[a] == cs[positions[a]])
    && (forall i | 0 <= i < |cs| :: i in positions <==> cs[i].state != Disconnected)
  }

  lemma OneMoreStays(most: seq<Connection>, last: Connection, positions: seq<nat>, rest: seq<Connection>)
    requires StayInOrder(most, positions, rest)
    ensures if last.state == Disconnected then StayInOrder(most + [last], positions, rest)
            else StayInOrder(most + [last], positions + [|most|], rest + [last])
  {
    var cs := most + [last];
    forall i | 0 <= i < |cs|
      ensures i in positions ==> i < |most|
      ensures i in positions + [|most|] <==> i in positions || i == |most|
    {
    }
  }

  lemma {:induction false} RemainingStayInOrder(cs: seq<Connection>) returns (positions: seq<nat>)
    ensures StayInOrder(cs, positions, Remaining(cs))
  {
    positions := [];
    if cs != [] {
      var most, last := cs[..|cs| - 1], cs[|cs| - 1];
      positions := RemainingStayInOrder(most);
      OneMoreStays(most, last, positions, Remaining(most));
      assert cs == most + [last];
      if last.state != Disconnected { positions := positions + [|most|]; }
    }
  }

  lemma EraseSettles(h: Host)
    requires InvAt(h, |h.connections|)
    ensures Settled(EraseDisconnected(h))
  {
    var h' := EraseDisconnected(h);
    RemainingMembers(h.connections);
    forall i | 0 <= i < |h'.connections|
      ensures ConnectionOk(h', i, 0) && !h'.connections[i].state.Disconnected?
    {
      assert h'.connections[i] in h'.connections;
      var j :| 0 <= j < |h.connections| && h.connections[j] == h'.connections[i];
      assert ConnectionOk(h, j, |h.connections|);
    }
    forall id: ConnectionId | !Has(h'.connections, id)
      ensures GoneOk(h', id)
    {
      if Has(h.connections, id) {
        var j :| 0 <= j < |h.connections| && h.connections[j].id == id;
        assert ConnectionOk(h, j, |h.connections|);
        var c := h.connections[j];
        assert !c.state.Disconnected? ==> c in h'.connections;
      } else {
        assert GoneOk(h, id);
      }
    }
  }

  // ---------------------------------------------------------------------------------------------
  // Received packets and the user's calls

  /** A new connection under the next id. */
  lemma AddingKeepsInv(h: Host, c: Connection)
    requires InvAt(h, 0) && h.created < 65536
    requires c.id == Wire(h.created + 1) && FindAddress(h.connections, c.address) == |h.connections|
    requires c.state == (if h.isServer then Deciding else Requesting) && !c.wasConnected && !c.accepted
    ensures InvAt(h.(created := h.created + 1, connections := h.connections + [c]), 0)
  {
    var h' := h.(created := h.created + 1, connections := h.connections + [c]);
    NewIdIsFree(h, c);
    forall i | 0 <= i < |h'.connections|
      ensures ConnectionOk(h', i, 0)
    {
      if i < |h.connections| { assert ConnectionOk(h, i, 0); }
    }
    forall id: ConnectionId | !Has(h'.connections, id)
      ensures GoneOk(h', id)
    {
      AddingKeepsGone(h, h', c, id);
    }
  }

  lemma NewIdIsFree(h: Host, c: Connection)
    requires InvAt(h, 0) && h.created < 65536 && c.id == Wire(h.created + 1)
    ensures Number(c.id) == h.created + 1 && GoneOk(h, c.id) && Callbacks(h.events, c.id) == []
    ensures forall i | 0 <= i < |h.connections| :: h.connections[i].id != c.id
  {
    forall i | 0 <= i < |h.connections|
      ensures h.connections[i].id != c.id
    {
      assert ConnectionOk(h, i, 0);
    }
    assert !Has(h.connections, c.id);
  }

  lemma AddingKeepsGone(h: Host, h': Host, c: Connection, id: ConnectionId)
    requires InvAt(h, 0) && h' == h.(created := h.created + 1, connections := h.connections + [c]) && !Has(h'.connections, id)
    ensures GoneOk(h', id)
  {
    assert forall i | 0 <= i < |h.connections| :: h'.connections[i].id == h.connections[i].id;
    assert !Has(h.connections, id);
    assert GoneOk(h, id);
  }

  lemma ReadKeepsInv(h: Host, id: ConnectionId, data: seq<Byte>)
    requires InvAt(h, 0) && |data| >= PACKET_HEADER_SIZE_BYTES
    ensures InvAt(ReadUserPacket(h, id, data), 0)
  {
    SameKeysKeepInv(h, ReadUserPacket(h, id, data));
  }

  /** Values in the tables do not matter to the invariant, nor do the packets sent. */
  lemma SameKeysKeepInv(h: Host, h': Host)
    requires InvAt(h, 0)
    requires h' == h.(sent := h'.sent, packets := h'.packets, channels := h'.channels, received := h'.received)
    requires h'.packets.Keys == h.packets.Keys && h'.channels.Keys == h.channels.Keys
    requires h.received.Keys <= h'.received.Keys <= h.received.Keys + h.channels.Keys
    ensures InvAt(h', 0)
  {
    assert forall id :: id in h'.received ==> id in h.received || id in h.channels;
    assert forall id :: id in h'.packets <==> id in h.packets;
    assert forall id :: id in h'.channels <==> id in h.channels;
    forall i | 0 <= i < |h'.connections|
      ensures ConnectionOk(h', i, 0)
    {
      assert ConnectionOk(h, i, 0);
    }
    forall id: ConnectionId | !Has(h'.connections, id)
      ensures GoneOk(h', id)
    {
      assert GoneOk(h, id);
    }
  }

  lemma DropsAreQuiet(h: Host, i: nat, p: Incoming)
    requires |p.data| >= PACKET_HEADER_SIZE_BYTES && i < |h.connections|
    ensures Quiet(h, h, i) && Quiet(h, OnDisconnect(h, i), i)
    ensures !h.connections[i].state.Requesting? ==> OnAccept(h, i, p.at) == h && Quiet(h, OnHeartbeat(h, i, p.at), i)
    ensures !h.connections[i].state.Connected? ==> OnUserPacket(h, i, p) == h
  {
  }

  /** A packet that neither opens a connection, nor brings one up, nor carries messages. */
  lemma OtherPacketIsQuiet(h: Host, p: Incoming, i: nat)
    requires |p.data| >= PACKET_HEADER_SIZE_BYTES && i == FindAddress(h.connections, p.from) < |h.connections|
    requires var kind := GetPacketHeader(p.data).kind;
             && !((kind == CONNECT_ACCEPT || kind == HEARTBEAT) && h.connections[i].state.Requesting?)
             && !(kind == USER_PACKET && h.connections[i].state.Connected?)
    ensures Quiet(h, Receive(h, p), i)
  {
    DropsAreQuiet(h, i, p);
  }

  lemma UserPacketKeepsInv(h: Host, p: Incoming, i: nat)
    requires |p.data| >= PACKET_HEADER_SIZE_BYTES && i == FindAddress(h.connections, p.from) < |h.connections|
    requires GetPacketHeader(p.data).kind == USER_PACKET && h.connections[i].state.Connected?
    requires InvAt(h, 0)
    ensures InvAt(Receive(h, p), 0)
  {
    var read := ReadUserPacket(h, h.connections[i].id, p.data);
    ReadKeepsInv(h, h.connections[i].id, p.data);
    var h' := Heard(read, i, p.at);
    QuietKeepsInv(read, h', i, 0);
  }

  lemma AnswerComesUp(h: Host, p: Incoming, i: nat)
    requires |p.data| >= PACKET_HEADER_SIZE_BYTES && i == FindAddress(h.connections, p.from) < |h.connections|
    requires GetPacketHeader(p.data).kind in {CONNECT_ACCEPT, HEARTBEAT} && h.connections[i].state.Requesting?
    ensures ComesUp(h, Receive(h, p), i)
  {
  }

  lemma ReceiveKeepsInv(h: Host, p: Incoming, h': Host)
    requires |p.data| >= PACKET_HEADER_SIZE_BYTES && h' == Receive(h, p)
    requires InvAt(h, 0) && h'.created <= 65536
    ensures InvAt(h', 0)
  {
    var kind := GetPacketHeader(p.data).kind;
    var i := FindAddress(h.connections, p.from);
    if i == |h.connections| {
      if h' != h {
        AddingKeepsInv(h, h'.connections[i]);
      }
    } else if (kind == CONNECT_ACCEPT || kind == HEARTBEAT) && h.connections[i].state.Requesting? {
      assert ConnectionOk(h, i, 0);
      AnswerComesUp(h, p, i);
      ComingUpKeepsInv(h, h', i, 0);
    } else if kind == USER_PACKET && h.connections[i].state.Connected? {
      UserPacketKeepsInv(h, p, i);
    } else {
      OtherPacketIsQuiet(h, p, i);
      QuietKeepsInv(h, h', i, 0);
    }
  }

  lemma {:induction false} ReceiveAllKeepsInv(h: Host, batch: seq<Incoming>)
    requires WholeHeaders(batch) && InvAt(h, 0) && ReceiveAll(h, batch).created <= 65536
    ensures InvAt(ReceiveAll(h, batch), 0)
  {
    if batch != [] {
      var before, p := ReceiveAll(h, batch[..|batch| - 1]), batch[|batch| - 1];
      ReceiveAllKeepsInv(h, batch[..|batch| - 1]);
      ReceiveKeepsInv(before, p, ReceiveAll(h, batch));
    }
  }

  lemma ReceivingSettles(h: Host, batch: seq<Incoming>, now: nat)
    requires WholeHeaders(batch) && InvAt(h, 0) && UpdateReceiveAll(h, batch, now).created <= 65536
    ensures Settled(UpdateReceiveAll(h, batch, now))
  {
    var h1 := ReceiveAll(h, batch);
    ReceiveAllKeepsInv(h, batch);
    UpdateUpToKeepsInv(h1, |h1.connections|, now);
    var h2 := UpdateUpTo(h1, |h1.connections|, now);
    EraseSettles(h2);
    SameKeysKeepInv(EraseDisconnected(h2), UpdateReceiveAll(h, batch, now));
  }

  lemma {:induction false} DisconnectingSome(h: Host, h': Host, k: nat)
    requires Settled(h) && k <= |h.connections| == |h'.connections|
    requires h' == h.(connections := h'.connections)
    requires forall i | 0 <= i < k :: h'.connections[i] == h.connections[i].(state := Disconnecting)
    requires forall i | k <= i < |h.connections| :: h'.connections[i] == h.connections[i]
    ensures InvAt(h', 0)
    decreases k
  {
    if k == 0 {
      assert h' == h;
    } else {
      var before := h'.(connections := h'.connections[k - 1 := h.connections[k - 1]]);
      DisconnectingSome(h, before, k - 1);
      assert Quiet(before, h', k - 1);
      QuietKeepsInv(before, h', k - 1, 0);
    }
  }

  lemma DisconnectSettles(h: Host, id: ConnectionId)
    requires Settled(h)
    ensures Settled(Disconnect(h, id))
  {
    var h' := Disconnect(h, id);
    var i := FindId(h.connections, id);
    if id == CONNECTION_ID_INVALID || !h.isServer {
      DisconnectingSome(h, h', |h.connections|);
    } else if i < |h.connections| {
      assert Quiet(h, h', i);
      QuietKeepsInv(h, h', i, 0);
    }
  }

  lemma DoSettles(h: Host, call: Call)
    requires Settled(h) && Do(h, call).created <= 65536
    ensures Settled(Do(h, call))
  {
    var h' := Do(h, call);
    match call
    case ConnectTo(address) =>
      if h' != h { AddingKeepsInv(h, h'.connections[|h.connections|]); }
    case DisconnectFrom(id) => DisconnectSettles(h, id);
    case Receiving(batch, now) =>
      if WholeHeaders(batch) { ReceivingSettles(h, batch, now); }
    case Sending(_, _, _) => SameKeysKeepInv(h, h');
    case SendRound(_, _) => SameKeysKeepInv(h, h');
    case SendDone(i, _) =>
      if h' != h {
        assert Quiet(h, h', i);
        QuietKeepsInv(h, h', i, 0);
      }
  }

  lemma {:induction false} RunSettles(h: Host, calls: seq<Call>)
    requires Settled(h) && DoAll(h, calls).created <= 65536
    ensures Settled(DoAll(h, calls))
  {
    if calls != [] {
      var most, last := calls[..|calls| - 1], calls[|calls| - 1];
      DoCreates(DoAll(h, most), last);
      RunSettles(h, most);
      DoSettles(DoAll(h, most), last);
    }
  }

  lemma {:induction false} ReceiveAllCreates(h: Host, batch: seq<Incoming>)
    requires WholeHeaders(batch)
    ensures ReceiveAll(h, batch).created >= h.created
  {
    if batch != [] {
      ReceiveAllCreates(h, batch[..|batch| - 1]);
    }
  }

  lemma DoCreates(h: Host, call: Call)
    ensures Do(h, call).created >= h.created
  {
    if call.Receiving? && WholeHeaders(call.batch) {
      ReceiveAllCreates(h, call.batch);
    }
  }

  lemma NewHostIsSettled(isServer: bool)
    ensures Settled(NewHost(isServer))
  {
  }

  // ---------------------------------------------------------------------------------------------
  // How one state follows another

  /** Every connection of `h'` is new or a connection of `h` that moved on; callbacks and packets are
      only added. */
  predicate Follows(h: Host, h': Host) {
    && h'.isServer == h.isServer && h'.created >= h.created
    && |h.events| <= |h'.events| && h'.events[..|h.events|] == h.events
    && SentMore(h, h')
    && (forall j | 0 <= j < |h'.connections| :: NewOrMovedOn(h, h'.connections[j]))
  }

  predicate NewOrMovedOn(h: Host, c': Connection) {
    Number(c'.id) > h.created || exists i | 0 <= i < |h.connections| :: Onward(h.connections[i], c')
  }

  /** An id that is in use now and was given out before was in use before. */
  lemma OldIdWasThere(h: Host, c': Connection, h': Host) returns (i: nat)
    requires Follows(h, h') && Number(c'.id) <= h.created && c' in h'.connections
    ensures i < |h.connections| && h.connections[i].id == c'.id
  {
    assert NewOrMovedOn(h, c');
    i :| 0 <= i < |h.connections| && Onward(h.connections[i], c');
  }

  lemma FollowsTransitive(a: Host, b: Host, c: Host)
    requires Follows(a, b) && Follows(b, c)
    ensures Follows(a, c)
  {
  }

  /** A change of at most the connection at `i`, which moves on. */
  predicate MovesOn(h: Host, h': Host, i: nat) {
    && h'.isServer == h.isServer && h'.created >= h.created
    && |h.events| <= |h'.events| && h'.events[..|h.events|] == h.events
    && SentMore(h, h')
    && i < |h.connections| == |h'.connections| && h'.connections == h.connections[i := h'.connections[i]]
    && Onward(h.connections[i], h'.connections[i])
  }

  lemma MovingOnFollows(h: Host, h': Host, i: nat)
    requires MovesOn(h, h', i)
    ensures Follows(h, h')
  {
  }

  lemma ChangesMoveOn(h: Host, h': Host, i: nat)
    requires Quiet(h, h', i) || (ComesUp(h, h', i) && Stage(h.connections[i].state) == 0)
    ensures MovesOn(h, h', i)
  {
  }

  lemma UserPacketMovesOn(h: Host, p: Incoming, i: nat)
    requires |p.data| >= PACKET_HEADER_SIZE_BYTES && i == FindAddress(h.connections, p.from) < |h.connections|
    requires GetPacketHeader(p.data).kind == USER_PACKET && h.connections[i].state.Connected?
    ensures var h' := Receive(h, p);
            MovesOn(h, h', i) && h'.events == h.events && h'.connections[i].state == h.connections[i].state
  {
    var read := ReadUserPacket(h, h.connections[i].id, p.data);
    assert read.connections == h.connections && read.events == h.events && read.sent == h.sent;
  }

  lemma ReceiveMovesOn(h: Host, p: Incoming, i: nat, h': Host)
    requires |p.data| >= PACKET_HEADER_SIZE_BYTES && i == FindAddress(h.connections, p.from) < |h.connections|
    requires h' == Receive(h, p)
    ensures MovesOn(h, h', i)
  {
    var kind := GetPacketHeader(p.data).kind;
    if (kind == CONNECT_ACCEPT || kind == HEARTBEAT) && h.connections[i].state.Requesting? {
      AnswerComesUp(h, p, i);
      ChangesMoveOn(h, h', i);
    } else if kind == USER_PACKET && h.connections[i].state.Connected? {
      UserPacketMovesOn(h, p, i);
    } else {
      OtherPacketIsQuiet(h, p, i);
      ChangesMoveOn(h, h', i);
    }
  }

  lemma UpdateStateMovesOn(h: Host, i: nat, now: nat, h': Host)
    requires i < |h.connections| && h' == UpdateState(h, i, now)
    ensures MovesOn(h, h', i)
  {
    if h.connections[i].state.Deciding? {
      DecidingComesUp(h, i, now);
    } else {
      OtherRoundIsQuiet(h, i, now);
    }
    ChangesMoveOn(h, h', i);
  }

  lemma SameConnectionsFollow(h: Host, h': Host)
    requires h'.isServer == h.isServer && h'.created == h.created
    requires |h.events| <= |h'.events| && h'.events[..|h.events|] == h.events
    requires SentMore(h, h')
    requires forall c | c in h'.connections :: c in h.connections
    ensures Follows(h, h')
  {
    forall j | 0 <= j < |h'.connections|
      ensures NewOrMovedOn(h, h'.connections[j])
    {
      assert h'.connections[j] in h.connections;
      var i :| 0 <= i < |h.connections| && h.connections[i] == h'.connections[j];
      assert Onward(h.connections[i], h'.connections[j]);
    }
  }

  lemma AddingFollows(h: Host, h': Host, c: Connection)
    requires h.created < 65536 && c.id == Wire(h.created + 1)
    requires h' == h.(created := h.created + 1, connections := h.connections + [c])
    ensures Follows(h, h')
  {
  }

  lemma ReceiveFollows(h: Host, p: Incoming, h': Host)
    requires |p.data| >= PACKET_HEADER_SIZE_BYTES && h' == Receive(h, p) && h'.created <= 65536
    ensures Follows(h, h')
  {
    var i := FindAddress(h.connections, p.from);
    if i < |h.connections| {
      ReceiveMovesOn(h, p, i, h');
      MovingOnFollows(h, h', i);
    } else if h' == h {
      SameConnectionsFollow(h, h);
    } else {
      AddingFollows(h, h', h'.connections[i]);
    }
  }

  lemma UpdateOneFollows(h: Host, i: nat, now: nat, h': Host)
    requires i < |h.connections| && h' == UpdateOne(h, i, now)
    ensures Follows(h, h')
  {
    var h1 := UpdateState(h, i, now);
    UpdateStateMovesOn(h, i, now, h1);
    MovingOnFollows(h, h1, i);
    SameConnectionsFollow(h1, h');
    FollowsTransitive(h, h1, h');
  }

  lemma {:induction false} ReceiveAllFollows(h: Host, batch: seq<Incoming>)
    requires WholeHeaders(batch) && ReceiveAll(h, batch).created <= 65536
    ensures Follows(h, ReceiveAll(h, batch))
  {
    if batch == [] {
      SameConnectionsFollow(h, h);
    } else {
      var before := ReceiveAll(h, batch[..|batch| - 1]);
      ReceiveAllFollows(h, batch[..|batch| - 1]);
      ReceiveFollows(before, batch[|batch| - 1], ReceiveAll(h, batch));
      FollowsTransitive(h, before, ReceiveAll(h, batch));
    }
  }

  lemma {:induction false} UpdateUpToFollows(h: Host, k: nat, now: nat, h': Host)
    requires k <= |h.connections| && h' == UpdateUpTo(h, k, now)
    ensures Follows(h, h')
    decreases k
  {
    if k == 0 {
      SameConnectionsFollow(h, h);
    } else {
      var before := UpdateUpTo(h, k - 1, now);
      UpdateUpToFollows(h, k - 1, now, before);
      UpdateOneFollows(before, k - 1, now, h');
      FollowsTransitive(h, before, h');
    }
  }

  lemma ReceivingFollows(h: Host, batch: seq<Incoming>, now: nat)
    requires WholeHeaders(batch) && UpdateReceiveAll(h, batch, now).created <= 65536
    ensures Follows(h, UpdateReceiveAll(h, batch, now))
  {
    var h1 := ReceiveAll(h, batch);
    var h2 := UpdateUpTo(h1, |h1.connections|, now);
    var h3 := UpdateReceiveAll(h, batch, now);
    ReceiveAllFollows(h, batch);
    UpdateUpToFollows(h1, |h1.connections|, now, h2);
    FollowsTransitive(h, h1, h2);
    RemainingMembers(h2.connections);
    SameConnectionsFollow(h2, h3);
    FollowsTransitive(h, h2, h3);
  }

  lemma DisconnectFollows(h: Host, id: ConnectionId)
    requires forall i | 0 <= i < |h.connections| :: !h.connections[i].state.Disconnected?
    ensures Follows(h, Disconnect(h, id))
  {
  }

  lemma DoFollows(h: Host, call: Call)
    requires Settled(h) && Do(h, call).created <= 65536
    ensures Follows(h, Do(h, call))
  {
    var h' := Do(h, call);
    match call
    case ConnectTo(address) =>
      if h' == h {
        SameConnectionsFollow(h, h);
      } else {
        AddingFollows(h, h', h'.connections[|h.connections|]);
      }
    case DisconnectFrom(id) => DisconnectFollows(h, id);
    case Receiving(batch, now) =>
      if WholeHeaders(batch) { ReceivingFollows(h, batch, now); } else { SameConnectionsFollow(h, h); }
    case Sending(_, _, _) => SameConnectionsFollow(h, h');
    case SendRound(_, _) => SameConnectionsFollow(h, h');
    case SendDone(i, _) =>
      if i < |h.connections| { MovingOnFollows(h, h', i); } else { SameConnectionsFollow(h, h); }
  }

  lemma {:induction false} RunFollows(h: Host, calls: seq<Call>)
    requires Settled(h) && DoAll(h, calls).created <= 65536
    ensures Follows(h, DoAll(h, calls))
  {
    if calls == [] {
      SameConnectionsFollow(h, h);
    } else {
      var most, last := calls[..|calls| - 1], calls[|calls| - 1];
      DoCreates(DoAll(h, most), last);
      RunFollows(h, most);
      RunSettles(h, most);
      DoFollows(DoAll(h, most), last);
      FollowsTransitive(h, DoAll(h, most), DoAll(h, calls));
    }
  }

  // ---------------------------------------------------------------------------------------------
  // updateSend as calls

  lemma {:induction false} DoAllConcat(h: Host, a: seq<Call>, b: seq<Call>)
    ensures DoAll(h, a + b) == DoAll(DoAll(h, a), b)
    decreases |b|
  {
    if b == [] {
      assert a + b == a;
    } else {
      assert (a + b)[..|a + b| - 1] == a + b[..|b| - 1];
      DoAllConcat(h, a, b[..|b| - 1]);
    }
  }

  lemma DoOne(h: Host, call: Call, h': Host)
    requires h' == Do(h, call)
    ensures DoAll(h, [call]) == h'
  {
  }

  lemma {:induction false} LoopIsRounds(h: Host, i: nat, c: Clock, r: Host) returns (calls: seq<Call>)
    requires i < |h.connections| && Ends(h, i, c) && r == SendAll(h, i, c)
    ensures DoAll(h, calls) == r
    decreases DueCount(PendingOf(h, i).reliable, c), |PendingOf(h, i).unreliable|, PendingOf(h, i).hasReliable
  {
    calls := [];
    if HasData(h, i) {
      var h1 := SendPass(h, i, c);
      PassShrinks(h, i, c);
      DoOne(h, SendRound(i, c), h1);
      var rest := LoopIsRounds(h1, i, c, r);
      DoAllConcat(h, [SendRound(i, c)], rest);
      calls := [SendRound(i, c)] + rest;
    }
  }

  lemma FrameIsCalls(h: Host, i: nat, c: Clock, r: Host) returns (calls: seq<Call>)
    requires i < |h.connections| && Ends(h, i, c) && r == SendFrame(h, i, c)
    ensures DoAll(h, calls) == r
  {
    calls := [];
    if HasData(h, i) {
      var all := SendAll(h, i, c);
      var rounds := LoopIsRounds(h, i, c, all);
      DoOne(all, SendDone(i, c.now), r);
      DoAllConcat(h, rounds, [SendDone(i, c.now)]);
      calls := rounds + [SendDone(i, c.now)];
    }
  }

  lemma {:induction false} FramesAreCalls(h: Host, k: nat, c: Clock, r: Host) returns (calls: seq<Call>)
    requires k <= |h.connections| && AllEnd(h, c) && r == SendUpTo(h, k, c)
    ensures DoAll(h, calls) == r
    decreases k
  {
    calls := [];
    if k > 0 {
      var before := SendUpTo(h, k - 1, c);
      var most := FramesAreCalls(h, k - 1, c, before);
      var last := FrameIsCalls(before, k - 1, c, r);
      DoAllConcat(h, most, last);
      calls := most + last;
    }
  }

  /** updateSend is made of the calls above, so what holds over all runs of them holds around it. */
  lemma UpdateSendIsCalls(h: Host, c: Clock) returns (calls: seq<Call>)
    requires AllEnd(h, c)
    ensures DoAll(h, calls) == UpdateSend(h, c)
  {
    calls := FramesAreCalls(h, |h.connections|, c, UpdateSend(h, c));
  }

  // ---------------------------------------------------------------------------------------------
  // Results: for every run with at most 65536 connections ever made

  /** Ids and addresses tell connections apart, and the two peer tables hold exactly the ids of the
      connections that came up. */
  predicate TablesAgree(h: Host) {
    && Distinct(h.connections)
    && (forall id: ConnectionId ::
          (id in h.packets <==> CameUpAs(h.connections, id)) && (id in h.channels <==> CameUpAs(h.connections, id)))
  }

  predicate CameUpAs(cs: seq<Connection>, id: ConnectionId) {
    exists i | 0 <= i < |cs| :: cs[i].id == id && cs[i].wasConnected
  }

  lemma PeerTablesAgree(isServer: bool, calls: seq<Call>)
    requires DoAll(NewHost(isServer), calls).created <= 65536
    ensures TablesAgree(DoAll(NewHost(isServer), calls))
  {
    NewHostIsSettled(isServer);
    RunSettles(NewHost(isServer), calls);
    SettledTablesAgree(DoAll(NewHost(isServer), calls));
  }

  lemma SettledTablesAgree(h: Host)
    requires Settled(h)
    ensures TablesAgree(h)
  {
    forall id: ConnectionId
      ensures (id in h.packets <==> CameUpAs(h.connections, id)) && (id in h.channels <==> CameUpAs(h.connections, id))
    {
      if Has(h.connections, id) {
        var i :| 0 <= i < |h.connections| && h.connections[i].id == id;
        assert ConnectionOk(h, i, 0);
      } else {
        assert GoneOk(h, id);
      }
    }
  }

  /** What the assertions in the packet manager demand where a packet is received: a connection that comes up
      has no peer yet, one that reads a user packet has both its peers. */
  predicate PacketMeetsPeers(h: Host, p: Incoming)
    requires |p.data| >= PACKET_HEADER_SIZE_BYTES
  {
    var i := FindAddress(h.connections, p.from);
    i < |h.connections| ==>
      && (Kind(p.data) in {CONNECT_ACCEPT, HEARTBEAT} && h.connections[i].state.Requesting? ==> InNoTable(h, h.connections[i].id))
      && (Kind(p.data) == USER_PACKET && h.connections[i].state.Connected? ==> InTables(h, h.connections[i].id))
  }

  /** And in a round of updateConnections: one that goes down has both its peers. */
  predicate RoundMeetsPeers(h: Host, i: nat, now: nat)
    requires i < |h.connections|
  {
    var h' := UpdateState(h, i, now);
    var c := h'.connections[i];
    && (h.connections[i].state.Deciding? ==> InNoTable(h, h.connections[i].id))
    && (c.state.Disconnected? && c.wasConnected ==> InTables(h', c.id))
  }

  /** The states inside a call, too. */
  predicate CallMeetsPeers(h: Host, call: Call) {
    match call
    case Receiving(batch, now) =>
      WholeHeaders(batch) ==>
        && (forall k | 0 <= k < |batch| :: PacketMeetsPeers(ReceiveAll(h, batch[..k]), batch[k]))
        && (var h1 := ReceiveAll(h, batch);
            forall k | 0 <= k < |h1.connections| :: RoundMeetsPeers(UpdateUpTo(h1, k, now), k, now))
    case SendRound(i, _) => i < |h.connections| && HasData(h, i) ==> InTables(h, h.connections[i].id)
    case _ => true
  }

  lemma {:induction false} PrefixCreatesLess(h: Host, batch: seq<Incoming>, k: nat)
    requires WholeHeaders(batch) && k <= |batch|
    ensures ReceiveAll(h, batch[..k]).created <= ReceiveAll(h, batch).created
    decreases |batch|
  {
    if k < |batch| {
      PrefixCreatesLess(h, batch[..|batch| - 1], k);
      assert batch[..|batch| - 1][..k] == batch[..k];
    } else {
      assert batch[..k] == batch;
    }
  }

  lemma InvMeetsPacket(h: Host, p: Incoming)
    requires InvAt(h, 0) && |p.data| >= PACKET_HEADER_SIZE_BYTES
    ensures PacketMeetsPeers(h, p)
  {
    var i := FindAddress(h.connections, p.from);
    if i < |h.connections| { assert ConnectionOk(h, i, 0); }
  }

  lemma InvMeetsRound(h: Host, i: nat, now: nat)
    requires i < |h.connections| && InvAt(h, i)
    ensures RoundMeetsPeers(h, i, now)
  {
    var h' := UpdateState(h, i, now);
    UpdateStateKeepsInv(h, i, now, h');
    assert ConnectionOk(h, i, i) && ConnectionOk(h', i, i);
  }

  /** In every reachable state no call meets a missing or a doubled peer, so the assertions that look for
      one never fire. */
  lemma NoMissingOrDoubledPeer(isServer: bool, calls: seq<Call>, call: Call)
    requires DoAll(NewHost(isServer), calls + [call]).created <= 65536
    ensures CallMeetsPeers(DoAll(NewHost(isServer), calls), call)
  {
    var h := DoAll(NewHost(isServer), calls);
    assert (calls + [call])[..|calls|] == calls;
    DoCreates(h, call);
    NewHostIsSettled(isServer);
    RunSettles(NewHost(isServer), calls);
    if call.Receiving? && WholeHeaders(call.batch) {
      ReceivingMeetsPeers(h, call.batch, call.now);
    } else if call.SendRound? && call.i < |h.connections| && HasData(h, call.i) {
      assert ConnectionOk(h, call.i, 0);
    }
  }

  lemma ReceivingMeetsPeers(h: Host, batch: seq<Incoming>, now: nat)
    requires InvAt(h, 0) && WholeHeaders(batch) && ReceiveAll(h, batch).created <= 65536
    ensures CallMeetsPeers(h, Receiving(batch, now))
  {
    var h1 := ReceiveAll(h, batch);
    forall k | 0 <= k < |batch|
      ensures PacketMeetsPeers(ReceiveAll(h, batch[..k]), batch[k])
    {
      PrefixCreatesLess(h, batch, k);
      ReceiveAllKeepsInv(h, batch[..k]);
      InvMeetsPacket(ReceiveAll(h, batch[..k]), batch[k]);
    }
    ReceiveAllKeepsInv(h, batch);
    forall k | 0 <= k < |h1.connections|
      ensures RoundMeetsPeers(UpdateUpTo(h1, k, now), k, now)
    {
      UpdateUpToKeepsInv(h1, k, now);
      InvMeetsRound(UpdateUpTo(h1, k, now), k, now);
    }
  }

  /** An id is told to the user as up at most once and as down at most once and only afterwards; between
      the two it has a peer in both tables, and after the second no connection has it. */
  lemma CallbacksAreBalanced(isServer: bool, calls: seq<Call>, id: ConnectionId)
    requires DoAll(NewHost(isServer), calls).created <= 65536
    ensures var h := DoAll(NewHost(isServer), calls);
            var told := Callbacks(h.events, id);
            && (told == [] || told == [Callback(Up, id, told[0].address)] || UpThenDown(told, id))
            && (|told| == 1 <==> InTables(h, id)) && (|told| != 1 <==> InNoTable(h, id))
            && (|told| == 2 ==> !Has(h.connections, id)) && (told == [] ==> LogOf(h.received, id) == [])
  {
    var h := DoAll(NewHost(isServer), calls);
    NewHostIsSettled(isServer);
    RunSettles(NewHost(isServer), calls);
    if Has(h.connections, id) {
      var i :| 0 <= i < |h.connections| && h.connections[i].id == id;
      assert ConnectionOk(h, i, 0);
    } else {
      assert GoneOk(h, id);
    }
  }

  lemma {:induction false} CallbacksGrow(events: seq<Callback>, more: seq<Callback>, id: ConnectionId)
    requires |events| <= |more| && more[..|events|] == events
    ensures Callbacks(events, id) <= Callbacks(more, id)
    decreases |more|
  {
    if |events| == |more| {
      assert events == more;
    } else {
      assert more[..|more| - 1][..|events|] == events;
      CallbacksGrow(events, more[..|more| - 1], id);
    }
  }

  /** A connection that came up and is gone was reported down, once; one that never came up was never
      reported at all. */
  lemma GoneMeansReportedDown(isServer: bool, calls: seq<Call>, later: seq<Call>, i: nat)
    requires i < |DoAll(NewHost(isServer), calls).connections|
    requires DoAll(DoAll(NewHost(isServer), calls), later).created <= 65536
    requires !Has(DoAll(DoAll(NewHost(isServer), calls), later).connections,
                  DoAll(NewHost(isServer), calls).connections[i].id)
    ensures var h := DoAll(NewHost(isServer), calls);
            var h' := DoAll(h, later);
            var told := Callbacks(h'.events, h.connections[i].id);
            && (told == [] || UpThenDown(told, h.connections[i].id))
            && (h.connections[i].wasConnected ==> told == Told(h.connections[i], true))
  {
    var h := DoAll(NewHost(isServer), calls);
    var h' := DoAll(h, later);
    NewHostIsSettled(isServer);
    RunCreates(h, later);
    RunSettles(NewHost(isServer), calls);
    RunSettles(h, later);
    RunFollows(h, later);
    assert ConnectionOk(h, i, 0);
    assert GoneOk(h', h.connections[i].id);
    CallbacksGrow(h.events, h'.events, h.connections[i].id);
  }

  lemma {:induction false} RunCreates(h: Host, calls: seq<Call>)
    ensures DoAll(h, calls).created >= h.created
  {
    if calls != [] {
      RunCreates(h, calls[..|calls| - 1]);
      DoCreates(DoAll(h, calls[..|calls| - 1]), calls[|calls| - 1]);
    }
  }

  /** Whatever a run does to a connection, it only moves on. */
  lemma ConnectionsOnlyMoveOn(isServer: bool, calls: seq<Call>, later: seq<Call>, i: nat, j: nat)
    requires i < |DoAll(NewHost(isServer), calls).connections|
    requires j < |DoAll(DoAll(NewHost(isServer), calls), later).connections|
    requires DoAll(DoAll(NewHost(isServer), calls), later).created <= 65536
    requires DoAll(DoAll(NewHost(isServer), calls), later).connections[j].id
          == DoAll(NewHost(isServer), calls).connections[i].id
    ensures var h := DoAll(NewHost(isServer), calls);
            Onward(h.connections[i], DoAll(h, later).connections[j])
  {
    var h := DoAll(NewHost(isServer), calls);
    var h' := DoAll(h, later);
    NewHostIsSettled(isServer);
    RunCreates(h, later);
    RunSettles(NewHost(isServer), calls);
    RunFollows(h, later);
    assert ConnectionOk(h, i, 0);
    assert NewOrMovedOn(h, h'.connections[j]);
  }

  function Dial(addresses: seq<Address>): seq<Call> {
    seq(|addresses|, i requires 0 <= i < |addresses| => ConnectTo(addresses[i]))
  }

  predicate NoTwins(addresses: seq<Address>) {
    forall i, j | 0 <= i < j < |addresses| :: addresses[i] != addresses[j]
  }

  /** The host that dialled these addresses and nothing else. */
  predicate Dialled(h: Host, addresses: seq<Address>) {
    && !h.isServer && h.created == |h.connections| == |addresses|
    && forall i | 0 <= i < |addresses| ::
         h.connections[i].id == Wire(i + 1) && h.connections[i].address == addresses[i]
  }

  lemma DialOneMore(h: Host, addresses: seq<Address>, last: Address, h': Host)
    requires Dialled(h, addresses) && last !in addresses && h' == Do(h, ConnectTo(last))
    ensures Dialled(h', addresses + [last])
  {
    assert forall j | 0 <= j < |h.connections| :: h.connections[j].address == addresses[j] && addresses[j] in addresses;
  }

  lemma {:induction false} DialNumbersInTurn(addresses: seq<Address>)
    requires NoTwins(addresses)
    ensures Dialled(DoAll(NewHost(false), Dial(addresses)), addresses)
  {
    if addresses != [] {
      var most, last := addresses[..|addresses| - 1], addresses[|addresses| - 1];
      DialNumbersInTurn(most);
      assert Dial(addresses)[..|addresses| - 1] == Dial(most);
      DialOneMore(DoAll(NewHost(false), Dial(most)), most, last, DoAll(NewHost(false), Dial(addresses)));
      assert addresses == most + [last];
    }
  }

  lemma NumbersInTurnRepeat(cs: seq<Connection>, addresses: seq<Address>)
    requires |cs| == |addresses| && NoTwins(addresses)
    requires forall i | 0 <= i < |cs| :: cs[i].id == Wire(i + 1) && cs[i].address == addresses[i]
    ensures Distinct(cs) <==> |cs| <= 65536
  {
    if |cs| > 65536 {
      assert cs[0].id == cs[65536].id;
    }
  }

  /** The bound is exact: a client that dials different addresses tells its connections apart by id as
      long as, and no longer than, it has made at most 65536. */
  lemma IdsTellApartIff(addresses: seq<Address>)
    requires NoTwins(addresses)
    ensures Distinct(DoAll(NewHost(false), Dial(addresses)).connections) <==> |addresses| <= 65536
  {
    DialNumbersInTurn(addresses);
    NumbersInTurnRepeat(DoAll(NewHost(false), Dial(addresses)).connections, addresses);
  }
}
