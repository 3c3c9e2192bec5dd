/** One connection on its own: what it hears, how it ages and what it says depend on nothing else of its
    host.  The definitions here follow one connection record; the lemmas tie them to the host. */
module SingleConnections {
  import opened Bytes
  import opened Connections
  import opened Lifecycle

  // ---------------------------------------------------------------------------------------------
  // The life of one connection

  /** A packet of the batch comes from this address and is of one of these kinds. */
  predicate Holds(batch: seq<Incoming>, from: Address, kinds: set<Byte>)
    requires WholeHeaders(batch)
  {
    exists p | p in batch :: p.from == from && Kind(p.data) in kinds
  }

  predicate Mentions(batch: seq<Incoming>, from: Address) {
    exists p | p in batch :: p.from == from
  }

  /** The states in which a packet of this kind counts as a sign of life. */
  predicate Noticed(c: Connection, kind: Byte) {
    || (kind in {CONNECT_ACCEPT, HEARTBEAT} && c.state.Requesting?)
    || (kind in {HEARTBEAT, USER_PACKET} && c.state.Connected?)
  }

  function Hears(c: Connection, p: Incoming): Connection
    requires |p.data| >= PACKET_HEADER_SIZE_BYTES
  {
    if p.from != c.address then c
    else if Kind(p.data) == DISCONNECT then c.(state := Disconnected)
    else if !Noticed(c, Kind(p.data)) then c
    else if c.state.Connected? then c.(heartbeatReceivedMs := p.at)
    else c.(state := Connected, wasConnected := true, accepted := true, heartbeatReceivedMs := p.at)
  }

  function HearsAll(c: Connection, batch: seq<Incoming>): Connection
    requires WholeHeaders(batch)
  {
    if batch == [] then c else Hears(HearsAll(c, batch[..|batch| - 1]), batch[|batch| - 1])
  }

  /** A request goes out at first, and again after 1500 ms. */
  predicate Asks(c: Connection, now: nat) {
    !c.accepted && (c.requestSentMs == 0 || Elapsed(now, c.requestSentMs) >= TIME_AFTER_RETRY_CONNECT_MS)
  }

  /** The connection after an update. */
  function Ages(c: Connection, now: nat): (aged: Connection)
    ensures aged.id == c.id && aged.address == c.address
  {
    match c.state
    case Requesting =>
      if !Asks(c, now) then c
      else if c.attemptsLeft <= 1 then c.(attemptsLeft := c.attemptsLeft - 1, state := Failed)
      else c.(attemptsLeft := c.attemptsLeft - 1, requestSentMs := now)
    case Deciding => c.(state := Connected, wasConnected := true, heartbeatSentMs := now)
    case Connected =>
      var c1 := if Elapsed(now, c.heartbeatSentMs) > TIME_AFTER_SEND_HEARTBEAT_MS then c.(heartbeatSentMs := now) else c;
      if Elapsed(now, c.heartbeatReceivedMs) > HEARTBEAT_TIMEOUT_MS then c1.(state := Disconnected) else c1
    case Disconnecting => c.(state := Disconnected)
    case _ => c
  }

  /** The packets it sends in that update. */
  function Says(c: Connection, now: nat): seq<seq<Byte>> {
    match c.state
    case Requesting => if Asks(c, now) && c.attemptsLeft > 1 then [ControlPacket(CONNECT_REQUEST)] else []
    case Deciding => [ControlPacket(CONNECT_ACCEPT)]
    case Connected => if Elapsed(now, c.heartbeatSentMs) > TIME_AFTER_SEND_HEARTBEAT_MS then [ControlPacket(HEARTBEAT)] else []
    case Disconnecting => [ControlPacket(DISCONNECT)]
    case _ => []
  }

  /** Everything sent to one address, oldest first. */
  function SentTo(sent: seq<Outgoing>, to: Address): seq<seq<Byte>> {
    if sent == [] then []
    else
      var last := sent[|sent| - 1];
      SentTo(sent[..|sent| - 1], to) + (if last.to == to then [last.data] else [])
  }

  lemma OneMoreTo(sent: seq<Outgoing>, o: Outgoing, to: Address)
    ensures SentTo(sent + [o], to) == SentTo(sent, to) + (if o.to == to then [o.data] else [])
  {
    assert (sent + [o])[..|sent|] == sent;
  }

  lemma {:induction false} SentToMembers(sent: seq<Outgoing>, to: Address, data: seq<Byte>)
    ensures data in SentTo(sent, to) <==> Outgoing(to, data) in sent
  {
    if sent != [] {
      var most, last := sent[..|sent| - 1], sent[|sent| - 1];
      assert sent == most + [last];
      SentToMembers(most, to, data);
    }
  }

  // ---------------------------------------------------------------------------------------------
  // Receiving

  predicate Apart(cs: seq<Connection>) {
    forall i, j | 0 <= i < j < |cs| :: cs[i].address != cs[j].address
  }

  lemma FoundAt(cs: seq<Connection>, i: nat)
    requires Apart(cs) && i < |cs|
    ensures FindAddress(cs, cs[i].address) == i
  {
  }

  lemma AnswerIsHeard(h: Host, i: nat, p: Incoming)
    requires |p.data| >= PACKET_HEADER_SIZE_BYTES && i < |h.connections| && h.connections[i].address == p.from
    requires Kind(p.data) in {CONNECT_ACCEPT, HEARTBEAT} && h.connections[i].state.Requesting?
    ensures Heard(Accepted(h, i), i, p.at).connections == h.connections[i := Hears(h.connections[i], p)]
  {
  }

  lemma UserPacketIsHeard(h: Host, i: nat, p: Incoming, h': Host)
    requires |p.data| >= PACKET_HEADER_SIZE_BYTES && i < |h.connections| && h.connections[i].address == p.from
    requires Kind(p.data) == USER_PACKET && h' == OnUserPacket(h, i, p)
    ensures h'.connections == h.connections[i := Hears(h.connections[i], p)]
  {
    if h.connections[i].state.Connected? {
      assert ReadUserPacket(h, h.connections[i].id, p.data).connections == h.connections;
    }
  }

  lemma OwnPacketIsHeard(h: Host, p: Incoming, i: nat, h': Host)
    requires |p.data| >= PACKET_HEADER_SIZE_BYTES && i == FindAddress(h.connections, p.from) < |h.connections|
    requires h' == Receive(h, p)
    ensures h'.connections == h.connections[i := Hears(h.connections[i], p)]
  {
    var kind := Kind(p.data);
    if kind in {CONNECT_ACCEPT, HEARTBEAT} && h.connections[i].state.Requesting? {
      AnswerIsHeard(h, i, p);
      assert h' == Heard(Accepted(h, i), i, p.at);
    } else if kind == USER_PACKET {
      UserPacketIsHeard(h, i, p, h');
    } else {
      PlainPacketIsHeard(h, i, p);
    }
  }

  /** Packets that neither bring the connection up nor carry messages. */
  lemma PlainPacketIsHeard(h: Host, i: nat, p: Incoming)
    requires |p.data| >= PACKET_HEADER_SIZE_BYTES && i == FindAddress(h.connections, p.from) < |h.connections|
    requires Kind(p.data) != USER_PACKET && !(Kind(p.data) in {CONNECT_ACCEPT, HEARTBEAT} && h.connections[i].state.Requesting?)
    ensures Receive(h, p).connections == h.connections[i := Hears(h.connections[i], p)]
  {
  }

  lemma ReceiveIsHeard(h: Host, p: Incoming, i: nat, h': Host)
    requires |p.data| >= PACKET_HEADER_SIZE_BYTES && Apart(h.connections) && i < |h.connections| && h' == Receive(h, p)
    ensures |h'.connections| >= |h.connections| && h'.connections[i] == Hears(h.connections[i], p)
  {
    FoundAt(h.connections, i);
    var own := FindAddress(h.connections, p.from);
    if own < |h.connections| {
      OwnPacketIsHeard(h, p, own, h');
    } else {
      StrangersPacket(h, p, h');
    }
  }

  /** A packet from an address without a connection can only open one. */
  lemma StrangersPacket(h: Host, p: Incoming, h': Host)
    requires |p.data| >= PACKET_HEADER_SIZE_BYTES && FindAddress(h.connections, p.from) == |h.connections| && h' == Receive(h, p)
    ensures if Kind(p.data) == CONNECT_REQUEST && h.isServer
            then h'.connections == h.connections + [Fresh(h, p.from, Deciding).(heartbeatReceivedMs := p.at)]
            else h' == h
  {
  }

  lemma ReceiveKeepsApart(h: Host, p: Incoming, h': Host)
    requires |p.data| >= PACKET_HEADER_SIZE_BYTES && Apart(h.connections) && h' == Receive(h, p)
    ensures Apart(h'.connections) && |h'.connections| >= |h.connections|
  {
    var own := FindAddress(h.connections, p.from);
    if own < |h.connections| {
      OwnPacketIsHeard(h, p, own, h');
    } else {
      StrangersPacket(h, p, h');
    }
  }

  lemma {:induction false} BatchIsHeard(h: Host, batch: seq<Incoming>, i: nat, h': Host)
    requires WholeHeaders(batch) && Apart(h.connections) && i < |h.connections| && h' == ReceiveAll(h, batch)
    ensures Apart(h'.connections) && |h'.connections| >= |h.connections|
    ensures h'.connections[i] == HearsAll(h.connections[i], batch)
    decreases |batch|
  {
    if batch != [] {
      var most, p := batch[..|batch| - 1], batch[|batch| - 1];
      var before := ReceiveAll(h, most);
      BatchIsHeard(h, most, i, before);
      ReceiveIsHeard(before, p, i, h');
      ReceiveKeepsApart(before, p, h');
    }
  }

  // ---------------------------------------------------------------------------------------------
  // Updating

  lemma RequestingAges(h: Host, i: nat, now: nat)
    requires i < |h.connections| && h.connections[i].state.Requesting?
    ensures UpdateRequesting(h, i, now).connections == h.connections[i := Ages(h.connections[i], now)]
  {
  }

  lemma ConnectedAges(h: Host, i: nat, now: nat)
    requires i < |h.connections| && h.connections[i].state.Connected?
    ensures UpdateConnected(h, i, now).connections == h.connections[i := Ages(h.connections[i], now)]
  {
    var c := h.connections[i];
    var c1 := if Elapsed(now, c.heartbeatSentMs) > TIME_AFTER_SEND_HEARTBEAT_MS then c.(heartbeatSentMs := now) else c;
    assert h.connections[i := c1][i := c1.(state := Disconnected)] == h.connections[i := c1.(state := Disconnected)];
  }

  lemma StateAges(h: Host, i: nat, now: nat, h': Host)
    requires i < |h.connections| && h' == UpdateState(h, i, now)
    ensures h'.connections == h.connections[i := Ages(h.connections[i], now)]
  {
    match h.connections[i].state
    case Requesting => RequestingAges(h, i, now);
    case Connected => ConnectedAges(h, i, now);
    case _ =>
  }

  lemma StateSays(h: Host, i: nat, now: nat, h': Host)
    requires i < |h.connections| && h' == UpdateState(h, i, now)
    ensures var said := Says(h.connections[i], now);
            && |said| <= 1
            && h'.sent == h.sent + (if said == [] then [] else [Outgoing(h.connections[i].address, said[0])])
  {
    var c := h.connections[i];
    match c.state
    case Requesting => RequestingSays(h, i, now);
    case Connected => ConnectedSays(h, i, now);
    case _ => assert h.sent + [] == h.sent;
  }

  lemma RequestingSays(h: Host, i: nat, now: nat)
    requires i < |h.connections| && h.connections[i].state.Requesting?
    ensures var c := h.connections[i];
            UpdateRequesting(h, i, now).sent
            == h.sent + (if Says(c, now) == [] then [] else [Outgoing(c.address, ControlPacket(CONNECT_REQUEST))])
  {
    assert h.sent + [] == h.sent;
  }

  lemma ConnectedSays(h: Host, i: nat, now: nat)
    requires i < |h.connections| && h.connections[i].state.Connected?
    ensures var c := h.connections[i];
            UpdateConnected(h, i, now).sent
            == h.sent + (if Says(c, now) == [] then [] else [Outgoing(c.address, ControlPacket(HEARTBEAT))])
  {
    assert h.sent + [] == h.sent;
  }

  lemma StateTells(h: Host, i: nat, now: nat, h': Host)
    requires i < |h.connections| && h' == UpdateState(h, i, now)
    ensures h'.events == h.events + (if h.connections[i].state.Deciding? then [UpOf(h.connections[i])] else [])
    ensures h'.isServer == h.isServer && h'.received == h.received
  {
    if h.connections[i].state.Deciding? {
      DecidingComesUp(h, i, now);
    } else {
      OtherRoundIsQuiet(h, i, now);
      assert h.events + [] == h.events;
    }
  }

  lemma UpdateOneSays(h: Host, i: nat, now: nat, h': Host, to: Address)
    requires i < |h.connections| && h' == UpdateOne(h, i, now)
    ensures SentTo(h'.sent, to) == SentTo(h.sent, to) + (if h.connections[i].address == to then Says(h.connections[i], now) else [])
  {
    StateSays(h, i, now, UpdateState(h, i, now));
    var said := Says(h.connections[i], now);
    assert h.sent + [] == h.sent;
    if said != [] { OneMoreTo(h.sent, Outgoing(h.connections[i].address, said[0]), to); }
  }

  /** A round of the update on the connection at `k`, seen from the one at `i`. */
  lemma RoundAges(h: Host, k: nat, now: nat, i: nat, h': Host)
    requires Apart(h.connections) && k < |h.connections| && i < |h.connections| && h' == UpdateOne(h, k, now)
    ensures h'.connections[i] == if i == k then Ages(h.connections[i], now) else h.connections[i]
    ensures SentTo(h'.sent, h.connections[i].address)
         == SentTo(h.sent, h.connections[i].address) + (if i == k then Says(h.connections[i], now) else [])
    ensures Apart(h'.connections)
  {
    StateAges(h, k, now, UpdateState(h, k, now));
    UpdateOneSays(h, k, now, h', h.connections[i].address);
  }

  /** What the rounds of the first `k` connections have made of the one at `i`. */
  predicate AgedUpTo(h: Host, k: nat, now: nat, i: nat, h': Host)
    requires i < |h.connections|
  {
    var c := h.connections[i];
    && |h'.connections| == |h.connections| && Apart(h'.connections) && h'.connections[i].address == c.address
    && h'.connections[i] == (if i < k then Ages(c, now) else c)
    && SentTo(h'.sent, c.address) == SentTo(h.sent, c.address) + (if i < k then Says(c, now) else [])
  }

  lemma AgesOneMore(h: Host, k: nat, now: nat, i: nat, before: Host, h': Host)
    requires i < |h.connections| && AgedUpTo(h, k, now, i, before) && |h'.connections| == |h.connections| && Apart(h'.connections)
    requires h'.connections[i] == if i == k then Ages(before.connections[i], now) else before.connections[i]
    requires SentTo(h'.sent, h.connections[i].address)
          == SentTo(before.sent, h.connections[i].address) + (if i == k then Says(before.connections[i], now) else [])
    ensures AgedUpTo(h, k + 1, now, i, h')
  {
    assert SentTo(h.sent, h.connections[i].address) + [] == SentTo(h.sent, h.connections[i].address);
  }

  lemma RoundAgesOneMore(h: Host, k: nat, now: nat, i: nat, before: Host, h': Host)
    requires i < |h.connections| && k < |h.connections| && AgedUpTo(h, k, now, i, before) && h' == UpdateOne(before, k, now)
    ensures AgedUpTo(h, k + 1, now, i, h')
  {
    RoundAges(before, k, now, i, h');
    AgesOneMore(h, k, now, i, before, h');
  }

  lemma {:induction false} UpdateAges(h: Host, k: nat, now: nat, i: nat, h': Host)
    requires Apart(h.connections) && k <= |h.connections| && i < |h.connections| && h' == UpdateUpTo(h, k, now)
    ensures AgedUpTo(h, k, now, i, h')
    decreases k
  {
    if k > 0 {
      var before := UpdateUpTo(h, k - 1, now);
      UpdateAges(h, k - 1, now, i, before);
      RoundAgesOneMore(h, k - 1, now, i, before, h');
    }
  }

  /** What an update tells the user of one connection. */
  function Reports(c: Connection, now: nat): seq<Callback> {
    if c.state.Deciding? then [UpOf(c)]
    else if Ages(c, now).state.Disconnected? && c.wasConnected then [DownOf(c)]
    else []
  }

  function SaidInTurn(cs: seq<Connection>, now: nat): seq<Outgoing> {
    if cs == [] then []
    else
      var last := cs[|cs| - 1];
      SaidInTurn(cs[..|cs| - 1], now) + (if Says(last, now) == [] then [] else [Outgoing(last.address, Says(last, now)[0])])
  }

  function ReportedInTurn(cs: seq<Connection>, now: nat): seq<Callback> {
    if cs == [] then [] else ReportedInTurn(cs[..|cs| - 1], now) + Reports(cs[|cs| - 1], now)
  }

  lemma RoundTells(h: Host, i: nat, now: nat, h': Host)
    requires i < |h.connections| && h' == UpdateOne(h, i, now)
    ensures h'.connections == h.connections[i := Ages(h.connections[i], now)]
    ensures h'.events == h.events + Reports(h.connections[i], now)
    ensures var said := Says(h.connections[i], now);
            && |said| <= 1
            && h'.sent == h.sent + (if said == [] then [] else [Outgoing(h.connections[i].address, said[0])])
  {
    var middle := UpdateState(h, i, now);
    StateAges(h, i, now, middle);
    StateSays(h, i, now, middle);
    StateTells(h, i, now, middle);
    assert middle.events + [] == middle.events;
  }

  /** An update goes through the connections in order: so do the packets it sends and what it tells. */
  lemma {:induction false} UpdateGoesInOrder(h: Host, k: nat, now: nat, h': Host)
    requires k <= |h.connections| && h' == UpdateUpTo(h, k, now)
    ensures UpdatedUpTo(h, k, now, h')
    decreases k
  {
    if k == 0 {
      assert h.sent + [] == h.sent && h.events + [] == h.events;
    } else {
      var before := UpdateUpTo(h, k - 1, now);
      UpdateGoesInOrder(h, k - 1, now, before);
      RoundTells(before, k - 1, now, h');
      RoundInTurn(h, k - 1, now, before, h');
    }
  }

  /** The first `k` connections have had their rounds, one after the other. */
  predicate UpdatedUpTo(h: Host, k: nat, now: nat, h': Host)
    requires k <= |h.connections|
  {
    && |h'.connections| == |h.connections|
    && (forall i | 0 <= i < |h.connections| ::
          h'.connections[i] == if i < k then Ages(h.connections[i], now) else h.connections[i])
    && h'.sent == h.sent + SaidInTurn(h.connections[..k], now)
    && h'.events == h.events + ReportedInTurn(h.connections[..k], now)
  }

  lemma RoundInTurn(h: Host, k: nat, now: nat, before: Host, h': Host)
    requires k < |h.connections| && UpdatedUpTo(h, k, now, before)
    requires h'.connections == before.connections[k := Ages(before.connections[k], now)]
    requires h'.events == before.events + Reports(before.connections[k], now)
    requires var said := Says(before.connections[k], now);
             && |said| <= 1
             && h'.sent == before.sent + (if said == [] then [] else [Outgoing(before.connections[k].address, said[0])])
    ensures UpdatedUpTo(h, k + 1, now, h')
  {
    var c := h.connections[k];
    var said := Says(c, now);
    assert h.connections[..k + 1][..k] == h.connections[..k];
    assert ReportedInTurn(h.connections[..k + 1], now) == ReportedInTurn(h.connections[..k], now) + Reports(c, now);
    assert SaidInTurn(h.connections[..k + 1], now)
        == SaidInTurn(h.connections[..k], now) + (if said == [] then [] else [Outgoing(c.address, said[0])]);
  }

  // ---------------------------------------------------------------------------------------------
  // One call of updateReceive

  /** What became of connection `c`: gone with its peers if disconnected, there otherwise, and reported
      as it should be. */
  predicate Became(h: Host, c: Connection) {
    && (if c.state.Disconnected? then !Has(h.connections, c.id) && InNoTable(h, c.id) else c in h.connections)
    && Callbacks(h.events, c.id) == Told(c, c.state.Disconnected?)
  }

  lemma ErasedBecame(h: Host, i: nat, h': Host)
    requires InvAt(h, |h.connections|) && i < |h.connections| && h' == FlushHost(EraseDisconnected(h))
    ensures Became(h', h.connections[i])
  {
    var c := h.connections[i];
    assert ConnectionOk(h, i, |h.connections|);
    RemainingMembers(h.connections);
    EraseSettles(h);
    SameKeysKeepInv(EraseDisconnected(h), h');
    if c.state.Disconnected? {
      forall j | 0 <= j < |h'.connections|
        ensures h'.connections[j].id != c.id
      {
        assert h'.connections[j] in h'.connections;
        var k :| 0 <= k < |h.connections| && h.connections[k] == h'.connections[j];
      }
      assert GoneOk(h', c.id);
    }
  }

  /** Whatever else a host has and receives, its connection hears its own packets, then ages, and says
      what a connection by itself would. */
  lemma UpdateReceiveOnOne(h: Host, batch: seq<Incoming>, now: nat, i: nat, h': Host)
    requires WholeHeaders(batch) && InvAt(h, 0) && i < |h.connections|
    requires h' == UpdateReceiveAll(h, batch, now) && h'.created <= 65536
    ensures var heard := HearsAll(h.connections[i], batch);
            && Became(h', Ages(heard, now))
            && SentTo(h'.sent, heard.address) == SentTo(h.sent, heard.address) + Says(heard, now)
  {
    var h1 := ReceiveAll(h, batch);
    var n := |h1.connections|;
    var h2 := UpdateUpTo(h1, n, now);
    ReceiveAllKeepsInv(h, batch);
    BatchIsHeard(h, batch, i, h1);
    ReceiveAllSends(h, batch);
    UpdateAges(h1, n, now, i, h2);
    UpdateUpToKeepsInv(h1, n, now);
    ErasedBecame(h2, i, h');
  }

  lemma {:induction false} ReceiveAllSends(h: Host, batch: seq<Incoming>)
    requires WholeHeaders(batch)
    ensures ReceiveAll(h, batch).sent == h.sent
  {
    if batch != [] {
      ReceiveAllSends(h, batch[..|batch| - 1]);
    }
  }

  // ---------------------------------------------------------------------------------------------
  // What a batch does to one connection

  lemma {:induction false} KeepsIdentity(c: Connection, batch: seq<Incoming>)
    requires WholeHeaders(batch)
    ensures var heard := HearsAll(c, batch);
            && heard == c.(state := heard.state, wasConnected := heard.wasConnected, accepted := heard.accepted,
                           heartbeatReceivedMs := heard.heartbeatReceivedMs)
            && (c.wasConnected ==> heard.wasConnected)
  {
    if batch != [] {
      KeepsIdentity(c, batch[..|batch| - 1]);
    }
  }

  /** A batch, one packet longer. */
  lemma HoldsMore(batch: seq<Incoming>, from: Address, kinds: set<Byte>)
    requires WholeHeaders(batch) && batch != []
    ensures var most, p := batch[..|batch| - 1], batch[|batch| - 1];
            && (Holds(batch, from, kinds) <==> Holds(most, from, kinds) || (p.from == from && Kind(p.data) in kinds))
            && (Mentions(batch, from) <==> Mentions(most, from) || p.from == from)
  {
    assert batch == batch[..|batch| - 1] + [batch[|batch| - 1]];
  }

  lemma {:induction false} HearsNothing(c: Connection, batch: seq<Incoming>)
    requires WholeHeaders(batch) && !Mentions(batch, c.address)
    ensures HearsAll(c, batch) == c
  {
    if batch != [] {
      HoldsMore(batch, c.address, {});
      HearsNothing(c, batch[..|batch| - 1]);
    }
  }

  /** A goodbye disconnects, whatever comes before or after it. */
  lemma {:induction false} HearsGoodbye(c: Connection, batch: seq<Incoming>)
    requires WholeHeaders(batch) && !c.state.Disconnected?
    ensures HearsAll(c, batch).state.Disconnected? <==> Holds(batch, c.address, {DISCONNECT})
  {
    if batch != [] {
      HoldsMore(batch, c.address, {DISCONNECT});
      HearsGoodbye(c, batch[..|batch| - 1]);
      KeepsIdentity(c, batch[..|batch| - 1]);
    }
  }

  lemma {:induction false} LeavingHears(c: Connection, batch: seq<Incoming>)
    requires WholeHeaders(batch) && (c.state.Disconnecting? || c.state.Disconnected?)
    ensures var heard := HearsAll(c, batch); heard == c.(state := heard.state) && (heard.state.Disconnecting? || heard.state.Disconnected?)
  {
    if batch != [] {
      LeavingHears(c, batch[..|batch| - 1]);
    }
  }

  /** An accept or a heartbeat, and nothing else, brings a requesting connection up. */
  lemma {:induction false} RequestingHears(c: Connection, batch: seq<Incoming>)
    requires WholeHeaders(batch) && c.state.Requesting? && !Holds(batch, c.address, {DISCONNECT})
    ensures var heard := HearsAll(c, batch);
            if Holds(batch, c.address, {CONNECT_ACCEPT, HEARTBEAT})
            then heard.state.Connected? && heard.wasConnected && exists p | p in batch :: p.from == c.address && p.at == heard.heartbeatReceivedMs
            else heard == c
  {
    if batch != [] {
      var most, p := batch[..|batch| - 1], batch[|batch| - 1];
      HoldsMore(batch, c.address, {DISCONNECT});
      HoldsMore(batch, c.address, {CONNECT_ACCEPT, HEARTBEAT});
      RequestingHears(c, most);
      KeepsIdentity(c, most);
      assert batch == most + [p];
    }
  }

  /** A connected one stays connected, and notes the time of the last packet that counts. */
  lemma {:induction false} ConnectedHears(c: Connection, batch: seq<Incoming>)
    requires WholeHeaders(batch) && c.state.Connected? && !Holds(batch, c.address, {DISCONNECT})
    ensures var heard := HearsAll(c, batch); heard == c.(heartbeatReceivedMs := heard.heartbeatReceivedMs)
  {
    if batch != [] {
      HoldsMore(batch, c.address, {DISCONNECT});
      ConnectedHears(c, batch[..|batch| - 1]);
    }
  }

}
