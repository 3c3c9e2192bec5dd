/** Hosts connecting to each other over a network that may drop, duplicate and reorder every packet
    ever sent, those of earlier sessions included. */
module Handshake {
  import opened SequenceNumbers
  import opened Bytes
  import opened Connections
  import opened Lifecycle
  import opened SingleConnections

  // ---------------------------------------------------------------------------------------------
  // The world

  type World = map<Address, Host>

  /** A host performs one call. */
  datatype Step = Step(who: Address, call: Call)

  /** A packet can reach a host only if some host sent it there, at any time before. */
  predicate Deliverable(w: World, to: Address, batch: seq<Incoming>) {
    forall p | p in batch :: p.from in w && Outgoing(to, p.data) in w[p.from].sent
  }

  function Next(w: World, s: Step): World {
    if s.who !in w || (s.call.Receiving? && !Deliverable(w, s.who, s.call.batch)) then w
    else w[s.who := Do(w[s.who], s.call)]
  }

  function Play(w: World, steps: seq<Step>): World {
    if steps == [] then w else Next(Play(w, steps[..|steps| - 1]), steps[|steps| - 1])
  }

  predicate Started(w: World) {
    forall a | a in w :: w[a] == NewHost(w[a].isServer)
  }

  // ---------------------------------------------------------------------------------------------
  // What one host keeps

  /** The host has entered CONNECTED with this address at some time (and told its user). */
  predicate CameUp(events: seq<Callback>, address: Address) {
    exists k | 0 <= k < |events| :: events[k].kind.Up? && events[k].address == address
  }

  lemma CameUpGrows(events: seq<Callback>, e: Callback, address: Address)
    ensures CameUp(events + [e], address) <==> CameUp(events, address) || (e.kind.Up? && e.address == address)
  {
    var more := events + [e];
    if CameUp(events, address) {
      var k :| 0 <= k < |events| && events[k].kind.Up? && events[k].address == address;
      assert more[k] == events[k];
    }
    assert more[|events|] == e;
  }

  /** An accept or a heartbeat goes only to an address with which the sender came up. */
  predicate SentOk(h: Host, o: Outgoing) {
    && |o.data| >= PACKET_HEADER_SIZE_BYTES
    && (Kind(o.data) == CONNECT_ACCEPT ==> h.isServer && CameUp(h.events, o.to))
    && (Kind(o.data) == HEARTBEAT ==> CameUp(h.events, o.to))
  }

  predicate StateOk(h: Host, c: Connection) {
    && (c.state.Connected? ==> CameUp(h.events, c.address))
    && (c.state.Requesting? ==> !h.isServer)
    && (c.state.Deciding? ==> h.isServer)
  }

  predicate HostOk(h: Host) {
    && (forall o | o in h.sent :: SentOk(h, o))
    && (forall i | 0 <= i < |h.connections| :: StateOk(h, h.connections[i]))
  }

  /** A step of one host: it keeps HostOk, forgets no callback, and a client comes up only with the
      addresses it heard from. */
  ghost predicate Goes(h: Host, h': Host, heard: set<Address>) {
    && h'.isServer == h.isServer && HostOk(h')
    && (forall a :: CameUp(h.events, a) ==> CameUp(h'.events, a))
    && (!h.isServer ==> forall a :: CameUp(h'.events, a) ==> CameUp(h.events, a) || a in heard)
  }

  /** What a step must do to keep HostOk: only the connection at `i` changes, at most one packet is sent
      and at most one callback is made. */
  lemma ChangeGoes(h: Host, h': Host, i: nat, heard: set<Address>)
    requires HostOk(h) && i < |h.connections| == |h'.connections|
    requires h'.isServer == h.isServer && h'.connections == h.connections[i := h'.connections[i]]
    requires h'.sent == h.sent || (exists o :: h'.sent == h.sent + [o] && SentOk(h', o))
    requires h'.events == h.events || exists e :: h'.events == h.events + [e] && (e.kind.Up? ==> h.isServer || e.address in heard)
    requires StateOk(h', h'.connections[i])
    ensures Goes(h, h', heard)
  {
    if h'.events != h.events {
      var e :| h'.events == h.events + [e] && (e.kind.Up? ==> h.isServer || e.address in heard);
      forall a
        ensures CameUp(h'.events, a) <==> CameUp(h.events, a) || (e.kind.Up? && e.address == a)
      {
        CameUpGrows(h.events, e, a);
      }
    }
    forall o | o in h'.sent
      ensures SentOk(h', o)
    {
      if o in h.sent { assert SentOk(h, o); }
    }
    forall j | 0 <= j < |h'.connections|
      ensures StateOk(h', h'.connections[j])
    {
      assert StateOk(h, h.connections[j]);
    }
  }

  lemma GoesOn(a: Host, b: Host, c: Host, heard: set<Address>, more: set<Address>)
    requires Goes(a, b, heard) && Goes(b, c, more)
    ensures Goes(a, c, heard + more)
  {
  }

  // ---------------------------------------------------------------------------------------------
  // Receiving

  /** The senders of the accepts and heartbeats of a batch. */
  function Answerers(batch: seq<Incoming>): set<Address>
    requires WholeHeaders(batch)
  {
    set p | p in batch && Kind(p.data) in {CONNECT_ACCEPT, HEARTBEAT} :: p.from
  }

  lemma ReceiveGoes(h: Host, p: Incoming, h': Host)
    requires HostOk(h) && |p.data| >= PACKET_HEADER_SIZE_BYTES && h' == Receive(h, p)
    ensures Goes(h, h', if Kind(p.data) in {CONNECT_ACCEPT, HEARTBEAT} then {p.from} else {})
  {
    var i := FindAddress(h.connections, p.from);
    var heard := if Kind(p.data) in {CONNECT_ACCEPT, HEARTBEAT} then {p.from} else {};
    if i == |h.connections| {
      assert h'.connections != h.connections ==> h'.connections == h.connections + [h'.connections[i]];
      AddingGoes(h, h', heard);
    } else {
      assert StateOk(h, h.connections[i]);
      if Kind(p.data) in {CONNECT_ACCEPT, HEARTBEAT} && h.connections[i].state.Requesting? {
        AnswerComesUp(h, p, i);
        CameUpGrows(h.events, Callback(Up, h.connections[i].id, p.from), p.from);
        ChangeGoes(h, h', i, heard);
      } else if Kind(p.data) == USER_PACKET && h.connections[i].state.Connected? {
        UserPacketMovesOn(h, p, i);
        ChangeGoes(h, h', i, heard);
      } else {
        OtherPacketIsQuiet(h, p, i);
        ChangeGoes(h, h', i, heard);
      }
    }
  }

  lemma AddingGoes(h: Host, h': Host, heard: set<Address>)
    requires HostOk(h) && h'.isServer == h.isServer && h'.sent == h.sent && h'.events == h.events
    requires h'.connections == h.connections ||
             exists c :: h'.connections == h.connections + [c] && StateOk(h', c)
    ensures Goes(h, h', heard)
  {
  }

  lemma {:induction false} ReceiveAllGoes(h: Host, batch: seq<Incoming>)
    requires HostOk(h) && WholeHeaders(batch)
    ensures Goes(h, ReceiveAll(h, batch), Answerers(batch))
  {
    if batch != [] {
      var most, p := batch[..|batch| - 1], batch[|batch| - 1];
      var heard := if Kind(p.data) in {CONNECT_ACCEPT, HEARTBEAT} then {p.from} else {};
      ReceiveAllGoes(h, most);
      ReceiveGoes(ReceiveAll(h, most), p, ReceiveAll(h, batch));
      GoesOn(h, ReceiveAll(h, most), ReceiveAll(h, batch), Answerers(most), heard);
      assert batch == most + [p];
      assert Answerers(batch) == Answerers(most) + heard;
    }
  }

  // ---------------------------------------------------------------------------------------------
  // Updating

  lemma UpdateStateGoes(h: Host, i: nat, now: nat, h': Host)
    requires HostOk(h) && i < |h.connections| && h' == UpdateState(h, i, now)
    ensures Goes(h, h', {})
  {
    StateAges(h, i, now, h');
    StateSays(h, i, now, h');
    StateTells(h, i, now, h');
    RoundGoes(h, i, now, h');
  }

  /** What a round changes, says and tells. */
  lemma RoundGoes(h: Host, i: nat, now: nat, h': Host)
    requires HostOk(h) && i < |h.connections| && h'.isServer == h.isServer
    requires h'.connections == h.connections[i := Ages(h.connections[i], now)]
    requires var said := Says(h.connections[i], now);
             && |said| <= 1
             && h'.sent == h.sent + (if said == [] then [] else [Outgoing(h.connections[i].address, said[0])])
    requires h'.events == h.events + (if h.connections[i].state.Deciding? then [UpOf(h.connections[i])] else [])
    ensures Goes(h, h', {})
  {
    var c := h.connections[i];
    assert StateOk(h, c);
    CameUpGrows(h.events, UpOf(c), c.address);
    assert h.events + [] == h.events;
    if Says(c, now) != [] { SaidIsOk(h, h', c, now); }
    ChangeGoes(h, h', i, {});
  }

  lemma SaidIsOk(h: Host, h': Host, c: Connection, now: nat)
    requires StateOk(h, c) && h'.isServer == h.isServer && Says(c, now) != []
    requires c.state.Connected? || c.state.Deciding? ==> CameUp(h'.events, c.address)
    ensures SentOk(h', Outgoing(c.address, Says(c, now)[0]))
  {
    ControlKind(CONNECT_REQUEST);
    ControlKind(CONNECT_ACCEPT);
    ControlKind(HEARTBEAT);
    ControlKind(DISCONNECT);
  }

  lemma FinishRoundGoes(h: Host, i: nat, h': Host)
    requires HostOk(h) && i < |h.connections| && h' == FinishRound(h, i)
    ensures Goes(h, h', {})
  {
    assert StateOk(h, h.connections[i]);
    if h' != h {
      var e := Callback(Down, h.connections[i].id, h.connections[i].address);
      assert h'.events == h.events + [e];
      CameUpGrows(h.events, e, h.connections[i].address);
    }
    ChangeGoes(h, h', i, {});
  }

  lemma {:induction false} UpdateUpToGoes(h: Host, k: nat, now: nat)
    requires HostOk(h) && k <= |h.connections|
    ensures Goes(h, UpdateUpTo(h, k, now), {})
  {
    if k > 0 {
      var before := UpdateUpTo(h, k - 1, now);
      var middle := UpdateState(before, k - 1, now);
      UpdateUpToGoes(h, k - 1, now);
      UpdateStateGoes(before, k - 1, now, middle);
      FinishRoundGoes(middle, k - 1, UpdateUpTo(h, k, now));
      GoesOn(h, before, middle, {}, {});
      GoesOn(h, middle, UpdateUpTo(h, k, now), {}, {});
    }
  }

  lemma FewerConnectionsGo(h: Host, h': Host)
    requires HostOk(h) && h'.isServer == h.isServer && h'.events == h.events && h'.sent == h.sent
    requires forall c | c in h'.connections :: c in h.connections
    ensures Goes(h, h', {})
  {
    forall j | 0 <= j < |h'.connections|
      ensures StateOk(h', h'.connections[j])
    {
      assert h'.connections[j] in h.connections;
    }
    assert forall o | o in h'.sent :: SentOk(h, o);
  }

  lemma ReceivingGoes(h: Host, batch: seq<Incoming>, now: nat)
    requires HostOk(h) && WholeHeaders(batch)
    ensures Goes(h, UpdateReceiveAll(h, batch, now), Answerers(batch))
  {
    var h1 := ReceiveAll(h, batch);
    var h2 := UpdateUpTo(h1, |h1.connections|, now);
    ReceiveAllGoes(h, batch);
    UpdateUpToGoes(h1, |h1.connections|, now);
    GoesOn(h, h1, h2, Answerers(batch), {});
    RemainingMembers(h2.connections);
    FewerConnectionsGo(h2, UpdateReceiveAll(h, batch, now));
    GoesOn(h, h2, UpdateReceiveAll(h, batch, now), Answerers(batch), {});
  }

  lemma UserPacketGoes(h: Host, h': Host, i: nat)
    requires HostOk(h) && i < |h.connections| && HasData(h, i)
    requires exists c :: h' == SendPass(h, i, c)
    ensures Goes(h, h', {})
  {
  }

  function AnswersIn(call: Call): set<Address> {
    if call.Receiving? && WholeHeaders(call.batch) then Answerers(call.batch) else {}
  }

  lemma DoGoes(h: Host, call: Call, h': Host)
    requires HostOk(h) && h' == Do(h, call)
    ensures Goes(h, h', AnswersIn(call))
  {
    match call
    case Receiving(batch, now) =>
      if WholeHeaders(batch) { ReceivingGoes(h, batch, now); } else { FewerConnectionsGo(h, h'); }
    case SendRound(i, c) =>
      if h' == h { FewerConnectionsGo(h, h'); } else { UserPacketGoes(h, h', i); }
    case ConnectTo(_) => AddingGoes(h, h', {});
    case _ => OtherCallsGo(h, call, h');
  }

  lemma OtherCallsGo(h: Host, call: Call, h': Host)
    requires HostOk(h) && h' == Do(h, call) && (call.DisconnectFrom? || call.Sending? || call.SendDone?)
    ensures Goes(h, h', {})
  {
  }

  // ---------------------------------------------------------------------------------------------
  // The world

  /** A client came up only with servers that came up with it. */
  predicate Answered(w: World, x: Address, y: Address) {
    y in w && x in w && w[y].isServer && CameUp(w[y].events, x)
  }

  ghost predicate WorldOk(w: World) {
    && (forall x | x in w :: HostOk(w[x]))
    && (forall x, y | x in w && !w[x].isServer && CameUp(w[x].events, y) :: Answered(w, x, y))
  }

  /** Whoever answers a client is a server that came up with it. */
  lemma AnswererCameUp(w: World, x: Address, batch: seq<Incoming>, y: Address)
    requires WorldOk(w) && x in w && !w[x].isServer
    requires Deliverable(w, x, batch) && WholeHeaders(batch) && y in Answerers(batch)
    ensures Answered(w, x, y)
  {
  }

  lemma NextKeepsWorld(w: World, s: Step)
    requires WorldOk(w)
    ensures WorldOk(Next(w, s))
    ensures forall x, y | x in w && !w[x].isServer && CameUp(Next(w, s)[x].events, y) :: Answered(w, x, y)
  {
    var w' := Next(w, s);
    if w' != w {
      DoGoes(w[s.who], s.call, w'[s.who]);
      forall x, y | x in w && !w[x].isServer && CameUp(w'[x].events, y)
        ensures Answered(w, x, y) && Answered(w', x, y)
      {
        if !CameUp(w[x].events, y) {
          AnswererCameUp(w, x, s.call.batch, y);
        }
      }
    }
  }

  lemma {:induction false} PlayKeepsWorld(w: World, steps: seq<Step>)
    requires Started(w)
    ensures WorldOk(Play(w, steps)) && Play(w, steps).Keys == w.Keys
    ensures forall a | a in w :: Play(w, steps)[a].isServer == w[a].isServer
  {
    if steps != [] {
      var before := Play(w, steps[..|steps| - 1]);
      PlayKeepsWorld(w, steps[..|steps| - 1]);
      NextKeepsWorld(before, steps[|steps| - 1]);
      NextKeepsRoles(before, steps[|steps| - 1]);
    }
  }

  lemma NextKeepsRoles(w: World, s: Step)
    requires WorldOk(w)
    ensures Next(w, s).Keys == w.Keys && forall a | a in w :: Next(w, s)[a].isServer == w[a].isServer
  {
    if s.who in w {
      DoGoes(w[s.who], s.call, Do(w[s.who], s.call));
    }
  }

  // ---------------------------------------------------------------------------------------------
  // Results

  /** A client's connection is CONNECTED only if the remote is a server that came up with this client. */
  lemma ConnectedMeansAnswered(w: World, steps: seq<Step>, x: Address, i: nat)
    requires Started(w) && x in w && !w[x].isServer
    requires x in Play(w, steps) && i < |Play(w, steps)[x].connections|
    requires Play(w, steps)[x].connections[i].state.Connected?
    ensures Answered(Play(w, steps), x, Play(w, steps)[x].connections[i].address)
  {
    PlayKeepsWorld(w, steps);
    assert StateOk(Play(w, steps)[x], Play(w, steps)[x].connections[i]);
  }

  /** The server came up first: already before the step in which the client does. */
  lemma ServerComesUpFirst(w: World, steps: seq<Step>, s: Step, x: Address, y: Address)
    requires Started(w) && x in w && !w[x].isServer
    requires x in Play(w, steps) && x in Next(Play(w, steps), s)
    requires CameUp(Next(Play(w, steps), s)[x].events, y)
    ensures Answered(Play(w, steps), x, y)
  {
    PlayKeepsWorld(w, steps);
    NextKeepsWorld(Play(w, steps), s);
  }

  /** Two clients that request each other never connect, nor does a client with itself. */
  lemma ClientsNeverConnect(w: World, steps: seq<Step>, x: Address, y: Address)
    requires Started(w) && x in w && y in w && !w[x].isServer && !w[y].isServer
    ensures x in Play(w, steps) && !CameUp(Play(w, steps)[x].events, y)
    ensures forall i | 0 <= i < |Play(w, steps)[x].connections| ::
              var c := Play(w, steps)[x].connections[i]; c.address == y ==> !c.state.Connected?
  {
    PlayKeepsWorld(w, steps);
    var h := Play(w, steps)[x];
    forall i | 0 <= i < |h.connections| && h.connections[i].address == y
      ensures !h.connections[i].state.Connected?
    {
      assert StateOk(h, h.connections[i]);
    }
  }

  // ---------------------------------------------------------------------------------------------
  // A handshake that completes

  /** What arrives from an address is at most five seconds old. */
  predicate Recent(batch: seq<Incoming>, from: Address, now: nat) {
    forall p | p in batch && p.from == from :: p.at <= now <= p.at + HEARTBEAT_TIMEOUT_MS
  }

  /** A requesting connection that is not told goodbye comes up exactly in an update that receives an
      accept or a heartbeat from its address, whatever else arrives; if that is recent it stays. */
  lemma AnswerConnects(h: Host, batch: seq<Incoming>, now: nat, i: nat, h': Host)
    requires Settled(h) && i < |h.connections| && h.connections[i].state.Requesting?
    requires WholeHeaders(batch) && !Holds(batch, h.connections[i].address, {DISCONNECT})
    requires h' == UpdateReceiveAll(h, batch, now) && h'.created <= 65536
    ensures var c := h.connections[i];
            var answered := Holds(batch, c.address, {CONNECT_ACCEPT, HEARTBEAT});
            && (Callbacks(h'.events, c.id) != [] <==> answered)
            && (answered && Recent(batch, c.address, now) ==> ConnectedTo(h', c.id, c.address))
  {
    var c := h.connections[i];
    var heard := HearsAll(c, batch);
    assert ConnectionOk(h, i, 0);
    RequestingHears(c, batch);
    KeepsIdentity(c, batch);
    UpdateReceiveOnOne(h, batch, now, i, h');
    if Holds(batch, c.address, {CONNECT_ACCEPT, HEARTBEAT}) {
      AnsweredStays(heard, batch, now);
    } else {
      assert !Ages(c, now).wasConnected;
    }
  }

  lemma AnsweredStays(heard: Connection, batch: seq<Incoming>, now: nat)
    requires heard.state.Connected? && exists p | p in batch :: p.from == heard.address && p.at == heard.heartbeatReceivedMs
    ensures Ages(heard, now) == heard.(state := Ages(heard, now).state, heartbeatSentMs := Ages(heard, now).heartbeatSentMs)
    ensures Recent(batch, heard.address, now) ==> Ages(heard, now).state.Connected?
  {
  }

  predicate ConnectedTo(h: Host, id: ConnectionId, address: Address) {
    exists c | c in h.connections :: c.id == id && c.address == address && c.state.Connected?
  }

  /** A new connection sends its first request in the next update that does not hear from the other end. */
  lemma NewConnectionAsks(h: Host, batch: seq<Incoming>, now: nat, i: nat, h': Host)
    requires Settled(h) && i < |h.connections| && h.connections[i].state.Requesting?
    requires h.connections[i].requestSentMs == 0 && h.connections[i].attemptsLeft > 1 && !h.connections[i].accepted
    requires WholeHeaders(batch) && !Mentions(batch, h.connections[i].address)
    requires h' == UpdateReceiveAll(h, batch, now) && h'.created <= 65536
    ensures var c := h.connections[i];
            && Outgoing(c.address, ControlPacket(CONNECT_REQUEST)) in h'.sent
            && c.(attemptsLeft := c.attemptsLeft - 1, requestSentMs := now) in h'.connections
  {
    var c := h.connections[i];
    HearsNothing(c, batch);
    UpdateReceiveOnOne(h, batch, now, i, h');
    SentToMembers(h'.sent, c.address, ControlPacket(CONNECT_REQUEST));
  }

  /** The connection that a request of the batch opened, with the time of its arrival. */
  predicate OpenedBy(c: Connection, batch: seq<Incoming>)
    requires WholeHeaders(batch)
  {
    c.state.Deciding? && exists p | p in batch :: p.from == c.address && Kind(p.data) == CONNECT_REQUEST && c.heartbeatReceivedMs == p.at
  }

  /** A request from an address without a connection opens one. */
  lemma {:induction false} RequestOpens(h: Host, batch: seq<Incoming>, from: Address, h': Host)
    requires h.isServer && Apart(h.connections) && FindAddress(h.connections, from) == |h.connections|
    requires WholeHeaders(batch) && !Holds(batch, from, {DISCONNECT}) && h' == ReceiveAll(h, batch)
    ensures h'.isServer && Apart(h'.connections)
    ensures var i := FindAddress(h'.connections, from);
            if Holds(batch, from, {CONNECT_REQUEST})
            then i < |h'.connections| && OpenedBy(h'.connections[i], batch)
            else i == |h'.connections|
    decreases |batch|
  {
    if batch != [] {
      var most, p := batch[..|batch| - 1], batch[|batch| - 1];
      var before := ReceiveAll(h, most);
      HoldsMore(batch, from, {DISCONNECT});
      HoldsMore(batch, from, {CONNECT_REQUEST});
      RequestOpens(h, most, from, before);
      OnePacketMore(before, p, from, h');
      assert batch == most + [p];
    }
  }

  lemma OnePacketMore(h: Host, p: Incoming, from: Address, h': Host)
    requires h.isServer && Apart(h.connections) && |p.data| >= PACKET_HEADER_SIZE_BYTES && h' == Receive(h, p)
    requires p.from == from ==> Kind(p.data) != DISCONNECT
    requires var i := FindAddress(h.connections, from); i < |h.connections| ==> h.connections[i].state.Deciding?
    ensures h'.isServer && Apart(h'.connections)
    ensures var i, i' := FindAddress(h.connections, from), FindAddress(h'.connections, from);
            if i < |h.connections| then i' < |h'.connections| && h'.connections[i'] == h.connections[i]
            else if p.from == from && Kind(p.data) == CONNECT_REQUEST
            then i' < |h'.connections| && h'.connections[i'].state.Deciding? && h'.connections[i'].heartbeatReceivedMs == p.at
            else i' == |h'.connections|
  {
    ReceiveKeepsApart(h, p, h');
    var i := FindAddress(h.connections, from);
    if i < |h.connections| {
      ReceiveIsHeard(h, p, i, h');
      FoundAt(h'.connections, i);
    } else {
      NoneMore(h, p, from, h');
    }
  }

  lemma NoneMore(h: Host, p: Incoming, from: Address, h': Host)
    requires h.isServer && |p.data| >= PACKET_HEADER_SIZE_BYTES && h' == Receive(h, p)
    requires FindAddress(h.connections, from) == |h.connections|
    ensures var i' := FindAddress(h'.connections, from);
            if p.from == from && Kind(p.data) == CONNECT_REQUEST
            then i' < |h'.connections| && h'.connections[i'].state.Deciding? && h'.connections[i'].heartbeatReceivedMs == p.at
            else i' == |h'.connections|
  {
    var own := FindAddress(h.connections, p.from);
    if own < |h.connections| {
      OwnPacketIsHeard(h, p, own, h');
    } else {
      StrangersPacket(h, p, h');
      assert h' != h ==> h'.connections[|h.connections|].address == p.from;
    }
  }

  /** A server that receives a request accepts it in the same update, and is connected.  It notes the accept
      as sent and the request as heard. */
  lemma ServerAccepts(h: Host, batch: seq<Incoming>, now: nat, from: Address, h': Host)
    requires Settled(h) && h.isServer && FindAddress(h.connections, from) == |h.connections|
    requires WholeHeaders(batch) && Holds(batch, from, {CONNECT_REQUEST}) && !Holds(batch, from, {DISCONNECT})
    requires h' == UpdateReceiveAll(h, batch, now) && h'.created <= 65536
    ensures SentTo(h'.sent, from) == SentTo(h.sent, from) + [ControlPacket(CONNECT_ACCEPT)]
    ensures exists c | c in h'.connections ::
              && c.address == from && c.state.Connected? && c.heartbeatSentMs == now && Callbacks(h'.events, c.id) == [UpOf(c)]
              && exists p | p in batch :: p.from == from && Kind(p.data) == CONNECT_REQUEST && c.heartbeatReceivedMs == p.at
  {
    var h1 := ReceiveAll(h, batch);
    var n := |h1.connections|;
    var h2 := UpdateUpTo(h1, n, now);
    ReceiveAllKeepsInv(h, batch);
    RequestOpens(h, batch, from, h1);
    var i := FindAddress(h1.connections, from);
    UpdateAges(h1, n, now, i, h2);
    UpdateUpToKeepsInv(h1, n, now);
    ErasedBecame(h2, i, h');
    ReceiveAllSends(h, batch);
    assert h2.connections[i] in h'.connections;
  }

  /** A client at `a` and a server at `b`, with whatever other connections they have and whatever else
      arrives: if they have none with each other, the client asks for one, a request of its arrives, and a
      recent answer comes back, then both ends are CONNECTED, after one connect and three calls of
      updateReceive.  Request and accept are there to be delivered. */
  lemma HandshakeCompletes(client: Host, server: Host, a: Address, b: Address, batch1: seq<Incoming>, t1: nat,
                           batch2: seq<Incoming>, t2: nat, batch3: seq<Incoming>, t3: nat,
                           asking: Host, answering: Host, connected: Host)
    requires Settled(client) && !client.isServer && FindAddress(client.connections, b) == |client.connections|
    requires Settled(server) && server.isServer && FindAddress(server.connections, a) == |server.connections|
    requires WholeHeaders(batch1) && WholeHeaders(batch2) && WholeHeaders(batch3)
    requires asking == UpdateReceiveAll(Connect(client, b), batch1, t1) && !Mentions(batch1, b)
    requires answering == UpdateReceiveAll(server, batch2, t2) && answering.created <= 65536
    requires Holds(batch2, a, {CONNECT_REQUEST}) && !Holds(batch2, a, {DISCONNECT})
    requires connected == UpdateReceiveAll(asking, batch3, t3) && connected.created <= 65536
    requires Holds(batch3, b, {CONNECT_ACCEPT, HEARTBEAT}) && !Holds(batch3, b, {DISCONNECT}) && Recent(batch3, b, t3)
    ensures Outgoing(b, ControlPacket(CONNECT_REQUEST)) in asking.sent
    ensures Outgoing(a, ControlPacket(CONNECT_ACCEPT)) in answering.sent
    ensures ConnectedTo(connected, Wire(client.created + 1), b) && exists id :: ConnectedTo(answering, id, a)
  {
    ClientSide(client, b, batch1, t1, batch3, t3, asking, connected);
    ServerAccepts(server, batch2, t2, a, answering);
    SentToMembers(answering.sent, a, ControlPacket(CONNECT_ACCEPT));
    var c :| c in answering.connections && c.address == a && c.state.Connected?;
    assert ConnectedTo(answering, c.id, a);
  }

  lemma ClientSide(h: Host, to: Address, batch1: seq<Incoming>, t1: nat, batch3: seq<Incoming>, t3: nat, h2: Host, h4: Host)
    requires Settled(h) && !h.isServer && FindAddress(h.connections, to) == |h.connections|
    requires WholeHeaders(batch1) && WholeHeaders(batch3) && !Mentions(batch1, to)
    requires Holds(batch3, to, {CONNECT_ACCEPT, HEARTBEAT}) && !Holds(batch3, to, {DISCONNECT}) && Recent(batch3, to, t3)
    requires h2 == UpdateReceiveAll(Connect(h, to), batch1, t1) && h4 == UpdateReceiveAll(h2, batch3, t3) && h4.created <= 65536
    ensures Outgoing(to, ControlPacket(CONNECT_REQUEST)) in h2.sent && ConnectedTo(h4, Wire(h.created + 1), to)
  {
    var h1 := Connect(h, to);
    ClientCreates(h, to, batch1, t1, batch3, t3);
    DoSettles(h, ConnectTo(to));
    NewConnectionAsks(h1, batch1, t1, |h.connections|, h2);
    ReceivingSettles(h1, batch1, t1);
    var asked := h1.connections[|h.connections|];
    var c := asked.(attemptsLeft := asked.attemptsLeft - 1, requestSentMs := t1);
    assert c.id == Wire(h.created + 1) && c.address == to && c.state.Requesting?;
    var i :| 0 <= i < |h2.connections| && h2.connections[i] == c;
    AnswerConnects(h2, batch3, t3, i, h4);
  }

  lemma ClientCreates(h: Host, to: Address, batch1: seq<Incoming>, t1: nat, batch3: seq<Incoming>, t3: nat)
    requires WholeHeaders(batch1) && WholeHeaders(batch3)
    ensures var h1 := Connect(h, to);
            var h2 := UpdateReceiveAll(h1, batch1, t1);
            h1.created <= h2.created <= UpdateReceiveAll(h2, batch3, t3).created
  {
    var h1 := Connect(h, to);
    DoCreates(h1, Receiving(batch1, t1));
    DoCreates(UpdateReceiveAll(h1, batch1, t1), Receiving(batch3, t3));
  }
}
