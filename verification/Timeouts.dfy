/** How connections end: silence, goodbyes, requests that nobody answers. */
module Timeouts {
  import opened SequenceNumbers
  import opened Bytes
  import opened Connections
  import opened Lifecycle
  import opened SingleConnections

  // ---------------------------------------------------------------------------------------------
  // Silence

  /** A connection from whose address nothing arrives is dropped, and reported down, exactly by an update
      more than five seconds after it was last heard, whatever else arrives. */
  lemma SilentConnectionIsDroppedIff(h: Host, batch: seq<Incoming>, now: nat, i: nat, h': Host)
    requires Settled(h) && i < |h.connections| && h.connections[i].state.Connected?
    requires WholeHeaders(batch) && !Mentions(batch, h.connections[i].address)
    requires h' == UpdateReceiveAll(h, batch, now) && h'.created <= 65536
    ensures var c := h.connections[i];
            && (Has(h'.connections, c.id) <==> Elapsed(now, c.heartbeatReceivedMs) <= HEARTBEAT_TIMEOUT_MS)
            && Callbacks(h'.events, c.id) == (if Has(h'.connections, c.id) then [UpOf(c)] else [UpOf(c), DownOf(c)])
  {
    assert ConnectionOk(h, i, 0);
    HearsNothing(h.connections[i], batch);
    UpdateReceiveOnOne(h, batch, now, i, h');
  }

  /** A connected one that is not told goodbye is sent a heartbeat exactly if more than a second has passed
      since the time noted of the last packet to it, and nothing else; the noted time is then at most a
      second old. */
  lemma HeartbeatKeepsPace(h: Host, batch: seq<Incoming>, now: nat, i: nat, h': Host)
    requires Settled(h) && i < |h.connections| && h.connections[i].state.Connected?
    requires WholeHeaders(batch) && !Holds(batch, h.connections[i].address, {DISCONNECT})
    requires h' == UpdateReceiveAll(h, batch, now) && h'.created <= 65536
    ensures var c := h.connections[i];
            && SentTo(h'.sent, c.address)
               == SentTo(h.sent, c.address)
                  + (if Elapsed(now, c.heartbeatSentMs) > TIME_AFTER_SEND_HEARTBEAT_MS then [ControlPacket(HEARTBEAT)] else [])
            && (Has(h'.connections, c.id) ==>
                  exists c' | c' in h'.connections :: c'.id == c.id && Elapsed(now, c'.heartbeatSentMs) <= TIME_AFTER_SEND_HEARTBEAT_MS)
  {
    var heard := HearsAll(h.connections[i], batch);
    ConnectedHears(h.connections[i], batch);
    UpdateReceiveOnOne(h, batch, now, i, h');
    ConnectedSaysHeartbeat(heard, now);
    assert Ages(heard, now) in h'.connections || !Has(h'.connections, heard.id);
  }

  lemma ConnectedSaysHeartbeat(c: Connection, now: nat)
    requires c.state.Connected?
    ensures Says(c, now) == if Elapsed(now, c.heartbeatSentMs) > TIME_AFTER_SEND_HEARTBEAT_MS then [ControlPacket(HEARTBEAT)] else []
    ensures Elapsed(now, Ages(c, now).heartbeatSentMs) <= TIME_AFTER_SEND_HEARTBEAT_MS
  {
  }

  // ---------------------------------------------------------------------------------------------
  // Saying goodbye

  lemma LeavingEnds(h: Host, batch: seq<Incoming>, now: nat, i: nat, heard: Connection, h': Host)
    requires InvAt(h, 0) && i < |h.connections| && WholeHeaders(batch) && heard == HearsAll(h.connections[i], batch)
    requires heard.state.Disconnecting? || heard.state.Disconnected?
    requires h' == UpdateReceiveAll(h, batch, now) && h'.created <= 65536
    ensures Became(h', heard.(state := Disconnected))
    ensures SentTo(h'.sent, heard.address)
         == SentTo(h.sent, heard.address) + (if heard.state.Disconnected? then [] else [ControlPacket(DISCONNECT)])
  {
    UpdateReceiveOnOne(h, batch, now, i, h');
    assert Ages(heard, now) == heard.(state := Disconnected);
  }

  lemma DisconnectNames(h: Host, id: ConnectionId, i: nat)
    requires Distinct(h.connections) && i < |h.connections|
    requires id == CONNECTION_ID_INVALID || !h.isServer || h.connections[i].id == id
    ensures var left := Disconnect(h, id);
            && left == h.(connections := left.connections) && |left.connections| == |h.connections|
            && left.connections[i] == h.connections[i].(state := Disconnecting)
  {
  }

  /** After disconnect, the next update ends every connection it named, with its peers, and reports it
      down if it had been reported up, whatever arrives.  It says goodbye exactly if the other end did
      not do so first. */
  lemma DisconnectEnds(h: Host, id: ConnectionId, batch: seq<Incoming>, now: nat, i: nat, h': Host)
    requires Settled(h) && i < |h.connections| && WholeHeaders(batch)
    requires id == CONNECTION_ID_INVALID || !h.isServer || h.connections[i].id == id
    requires h' == UpdateReceiveAll(Disconnect(h, id), batch, now) && h'.created <= 65536
    ensures var c := h.connections[i];
            && Became(h', c.(state := Disconnected))
            && SentTo(h'.sent, c.address)
               == SentTo(h.sent, c.address)
                  + (if Holds(batch, c.address, {DISCONNECT}) then [] else [ControlPacket(DISCONNECT)])
  {
    var left := Disconnect(h, id);
    var c := h.connections[i].(state := Disconnecting);
    DisconnectSettles(h, id);
    DisconnectNames(h, id, i);
    LeavingHears(c, batch);
    HearsGoodbye(c, batch);
    LeavingEnds(left, batch, now, i, HearsAll(c, batch), h');
  }

  /** A goodbye from the other end ends the connection in the same update, whatever its state and whatever
      else arrives, and is not answered.  It is reported down if it was reported up, be it in the same
      update. */
  lemma GoodbyeEnds(h: Host, batch: seq<Incoming>, now: nat, i: nat, h': Host)
    requires Settled(h) && i < |h.connections| && WholeHeaders(batch)
    requires Holds(batch, h.connections[i].address, {DISCONNECT})
    requires h' == UpdateReceiveAll(h, batch, now) && h'.created <= 65536
    ensures var c := h.connections[i];
            var heard := HearsAll(c, batch);
            && heard.id == c.id && heard.state.Disconnected? && (c.wasConnected ==> heard.wasConnected)
            && Became(h', heard)
            && SentTo(h'.sent, c.address) == SentTo(h.sent, c.address)
  {
    var c := h.connections[i];
    KeepsIdentity(c, batch);
    HearsGoodbye(c, batch);
    LeavingEnds(h, batch, now, i, HearsAll(c, batch), h');
  }

  // ---------------------------------------------------------------------------------------------
  // A request that nobody answers

  function Count(packets: seq<seq<Byte>>, packet: seq<Byte>): nat {
    if packets == [] then 0
    else Count(packets[..|packets| - 1], packet) + (if packets[|packets| - 1] == packet then 1 else 0)
  }

  /** How many requests went to an address. */
  function Asked(h: Host, to: Address): nat {
    Count(SentTo(h.sent, to), ControlPacket(CONNECT_REQUEST))
  }

  lemma CountOneMore(packets: seq<seq<Byte>>, last: seq<Byte>, packet: seq<Byte>)
    ensures Count(packets + [last], packet) == Count(packets, packet) + (if last == packet then 1 else 0)
  {
    assert (packets + [last])[..|packets|] == packets;
  }

  /** A connection that nobody has answered, after so many requests, the last one at `last`. */
  predicate Unanswered(c: Connection, to: Address, requests: nat, last: nat) {
    && c.address == to && !c.accepted && !c.wasConnected && c.requestSentMs == last && requests <= 4
    && (match c.state
        case Requesting => c.attemptsLeft == CONNECTION_ATTEMPTS - requests
        case Failed => requests == 4
        case Disconnecting => true
        case _ => false)
  }

  predicate IsUpdate(call: Call) {
    call.Receiving? && WholeHeaders(call.batch)
  }

  /** Nothing arrives from this address. */
  predicate SilentFrom(call: Call, to: Address) {
    IsUpdate(call) ==> !Mentions(call.batch, to)
  }

  /** The update is one that asks again. */
  predicate AsksAgain(c: Connection, last: nat, call: Call) {
    IsUpdate(call) && c.state.Requesting? && (last == 0 || Elapsed(call.now, last) >= 1500)
  }

  lemma UpdateUnanswered(h: Host, call: Call, i: nat, requests: nat, last: nat, h': Host) returns (c': Connection)
    requires Settled(h) && IsUpdate(call) && h' == Do(h, call) && h'.created <= 65536
    requires i < |h.connections| && SilentFrom(call, h.connections[i].address)
    requires Unanswered(h.connections[i], h.connections[i].address, requests, last)
    ensures var c := h.connections[i];
            var again := AsksAgain(c, last, call);
            && c'.id == c.id
            && Asked(h', c.address) == Asked(h, c.address) + (if again && requests < 4 then 1 else 0)
            && (if c.state.Disconnecting? then !Has(h'.connections, c.id)
                else
                  && c' in h'.connections
                  && Unanswered(c', c.address, if again && requests < 4 then requests + 1 else requests,
                                if again && requests < 4 then call.now else last)
                  && !c'.state.Disconnecting?
                  && (c'.state.Failed? <==> c.state.Failed? || (again && requests == 4)))
  {
    var c := h.connections[i];
    HearsNothing(c, call.batch);
    UpdateReceiveOnOne(h, call.batch, call.now, i, h');
    c' := Ages(c, call.now);
    assert SentTo(h.sent, c.address) + [] == SentTo(h.sent, c.address);
    CountOneMore(SentTo(h.sent, c.address), ControlPacket(CONNECT_REQUEST), ControlPacket(CONNECT_REQUEST));
    CountOneMore(SentTo(h.sent, c.address), ControlPacket(DISCONNECT), ControlPacket(CONNECT_REQUEST));
    ControlKind(DISCONNECT);
    ControlKind(CONNECT_REQUEST);
  }

  /** A round of the send loop sends nothing to a connection that has not come up, and no request. */
  lemma RoundPassesUnanswered(h: Host, call: Call, i: nat, h': Host)
    requires Settled(h) && call.SendRound? && h' == Do(h, call)
    requires i < |h.connections| && !h.connections[i].wasConnected
    ensures h'.connections == h.connections && SentTo(h'.sent, h.connections[i].address) == SentTo(h.sent, h.connections[i].address)
  {
    assert ConnectionOk(h, i, 0);
    if h' != h {
      var o := h'.sent[|h.sent|];
      assert h'.sent == h.sent + [o] && o.to == h.connections[call.i].address;
      OneMoreTo(h.sent, o, h.connections[i].address);
    }
  }

  lemma OtherCallLeaves(h: Host, call: Call, i: nat, h': Host)
    requires !IsUpdate(call) && !call.SendRound? && h' == Do(h, call) && i < |h.connections|
    ensures h'.sent == h.sent && i < |h'.connections|
    ensures var (c, c') := (h.connections[i], h'.connections[i]);
            && c' == c.(state := c'.state, heartbeatSentMs := c'.heartbeatSentMs)
            && (c'.state == c.state || (call.DisconnectFrom? && c'.state.Disconnecting?))
  {
    match call
    case ConnectTo(_) =>
    case DisconnectFrom(id) => DisconnectLeaves(h, id, i);
    case _ =>
  }

  lemma DisconnectLeaves(h: Host, id: ConnectionId, i: nat)
    requires i < |h.connections|
    ensures var h' := Disconnect(h, id);
            && h'.sent == h.sent && |h'.connections| == |h.connections|
            && (h'.connections[i] == h.connections[i] || h'.connections[i] == h.connections[i].(state := Disconnecting))
  {
  }

  lemma OtherCallOnUnanswered(h: Host, call: Call, i: nat, requests: nat, last: nat, h': Host) returns (c': Connection)
    requires Settled(h) && !IsUpdate(call) && h' == Do(h, call)
    requires i < |h.connections| && Unanswered(h.connections[i], h.connections[i].address, requests, last)
    ensures var c := h.connections[i];
            && c' in h'.connections && c'.id == c.id && Unanswered(c', c.address, requests, last)
            && Asked(h', c.address) == Asked(h, c.address)
            && (call.DisconnectFrom? || c'.state == c.state)
  {
    if call.SendRound? {
      RoundPassesUnanswered(h, call, i, h');
    } else {
      OtherCallLeaves(h, call, i, h');
    }
    c' := h'.connections[i];
  }

  /** What a run of calls comes to: how many requests were sent, and when the last one was. */
  ghost predicate Waits(h: Host, id: ConnectionId, to: Address, base: nat, requests: nat, last: nat) {
    exists i | 0 <= i < |h.connections| ::
      h.connections[i].id == id && Unanswered(h.connections[i], to, requests, last) && Asked(h, to) == base + requests
  }

  /** The run starts when a client without a connection to `to` asks for one. */
  predicate Starts(g: Host, to: Address) {
    Settled(g) && !g.isServer && FindAddress(g.connections, to) == |g.connections|
  }

  lemma StartWaits(g: Host, to: Address)
    requires Starts(g, to) && g.created < 65536
    ensures Settled(Connect(g, to)) && Waits(Connect(g, to), Wire(g.created + 1), to, Asked(g, to), 0, 0)
  {
    var h := Connect(g, to);
    DoSettles(g, ConnectTo(to));
    assert h.connections[|g.connections|].id == Wire(g.created + 1);
  }

  lemma WaitsOn(h: Host, call: Call, id: ConnectionId, to: Address, base: nat, requests: nat, last: nat, h': Host)
    returns (requests': nat, last': nat)
    requires Settled(h) && h' == Do(h, call) && h'.created <= 65536 && SilentFrom(call, to)
    requires Waits(h, id, to, base, requests, last)
    ensures requests' <= 4 && (Has(h'.connections, id) ==> Waits(h', id, to, base, requests', last'))
  {
    var i :| 0 <= i < |h.connections| && h.connections[i].id == id && Unanswered(h.connections[i], to, requests, last);
    requests', last' := requests, last;
    if IsUpdate(call) {
      var c' := UpdateUnanswered(h, call, i, requests, last, h');
      if AsksAgain(h.connections[i], last, call) && requests < 4 { requests', last' := requests + 1, call.now; }
      if c' in h'.connections {
        var j :| 0 <= j < |h'.connections| && h'.connections[j] == c';
      }
    } else {
      var c' := OtherCallOnUnanswered(h, call, i, requests, last, h');
      var j :| 0 <= j < |h'.connections| && h'.connections[j] == c';
    }
  }

  predicate AllSilentFrom(calls: seq<Call>, to: Address) {
    forall call | call in calls :: SilentFrom(call, to)
  }

  /** An id that is in use now and was given out before was in use before. */
  lemma WasThere(h: Host, call: Call, id: ConnectionId, h': Host)
    requires Settled(h) && h' == Do(h, call) && h'.created <= 65536 && Number(id) <= h.created && Has(h'.connections, id)
    ensures Has(h.connections, id)
  {
    DoFollows(h, call);
    var j :| 0 <= j < |h'.connections| && h'.connections[j].id == id;
    var _ := OldIdWasThere(h, h'.connections[j], h');
  }

  lemma {:induction false} StillWaits(h0: Host, id: ConnectionId, to: Address, base: nat, calls: seq<Call>, h: Host)
    returns (requests: nat, last: nat)
    requires Settled(h0) && Number(id) <= h0.created && Waits(h0, id, to, base, 0, 0)
    requires AllSilentFrom(calls, to) && h == DoAll(h0, calls) && h.created <= 65536 && Has(h.connections, id)
    ensures requests <= 4 && Waits(h, id, to, base, requests, last)
    decreases |calls|
  {
    if calls == [] {
      requests, last := 0, 0;
    } else {
      var most, call := calls[..|calls| - 1], calls[|calls| - 1];
      var before := DoAll(h0, most);
      BeforeLast(h0, calls, before, h);
      WasThere(before, call, id, h);
      requests, last := StillWaits(h0, id, to, base, most, before);
      requests, last := WaitsOn(before, call, id, to, base, requests, last, h);
    }
  }

  lemma BeforeLast(h0: Host, calls: seq<Call>, before: Host, h: Host)
    requires calls != [] && Settled(h0) && h == DoAll(h0, calls) && h.created <= 65536
    requires before == DoAll(h0, calls[..|calls| - 1])
    ensures h == Do(before, calls[|calls| - 1]) && Settled(before) && h0.created <= before.created <= 65536
    ensures calls[|calls| - 1] in calls && forall call | call in calls[..|calls| - 1] :: call in calls
  {
    DoCreates(before, calls[|calls| - 1]);
    RunCreates(h0, calls[..|calls| - 1]);
    RunSettles(h0, calls[..|calls| - 1]);
  }

  /** Whatever else the client does, and however often it is updated: while nothing arrives from an
      address and the connection to it is there, at most four requests have gone there since it was asked
      for, the user was told nothing, and it has failed only if there were four. */
  lemma AtMostFourRequests(g: Host, to: Address, calls: seq<Call>, h: Host) returns (requests: nat, last: nat)
    requires Starts(g, to) && AllSilentFrom(calls, to) && h == DoAll(Connect(g, to), calls) && h.created <= 65536
    requires Has(h.connections, Wire(g.created + 1))
    ensures requests <= 4 && Waits(h, Wire(g.created + 1), to, Asked(g, to), requests, last)
    ensures Callbacks(h.events, Wire(g.created + 1)) == []
  {
    RunCreates(Connect(g, to), calls);
    StartWaits(g, to);
    requests, last := StillWaits(Connect(g, to), Wire(g.created + 1), to, Asked(g, to), calls, h);
    RunSettles(Connect(g, to), calls);
    NotToldYet(h, Wire(g.created + 1), to, Asked(g, to), requests, last);
  }

  lemma NotToldYet(h: Host, id: ConnectionId, to: Address, base: nat, requests: nat, last: nat)
    requires Settled(h)
    ensures Waits(h, id, to, base, requests, last) ==> Callbacks(h.events, id) == []
  {
    if Waits(h, id, to, base, requests, last) {
      var i :| 0 <= i < |h.connections| && h.connections[i].id == id && Unanswered(h.connections[i], to, requests, last);
      assert ConnectionOk(h, i, 0);
    }
  }

  // ---------------------------------------------------------------------------------------------
  // Updates at least 1500 ms apart

  /** When the updates among the calls happen. */
  function UpdateTimes(calls: seq<Call>): seq<nat> {
    if calls == [] then []
    else UpdateTimes(calls[..|calls| - 1]) + (if IsUpdate(calls[|calls| - 1]) then [calls[|calls| - 1].now] else [])
  }

  /** Updates at least 1500 ms apart, on a running 32-bit clock. */
  predicate Spaced(times: seq<nat>) {
    && (forall i | 0 <= i < |times| :: 0 < times[i] < 0x1_0000_0000)
    && (forall i, j | 0 <= i < j < |times| :: times[i] + 1500 <= times[j])
  }

  /** How many requests `n` spaced updates send, and when the last one goes out. */
  function RequestsBy(n: nat): nat {
    if n < 4 then n else 4
  }

  function LastBy(times: seq<nat>): nat {
    if times == [] then 0 else times[RequestsBy(|times|) - 1]
  }

  lemma SpacedBefore(most: seq<nat>, now: nat)
    requires Spaced(most + [now])
    ensures Spaced(most)
    ensures LastBy(most) == 0 || Elapsed(now, LastBy(most)) >= 1500
    ensures LastBy(most + [now]) == (if |most| < 4 then now else LastBy(most))
  {
    var times := most + [now];
    forall i | 0 <= i < |most|
      ensures times[i] == most[i] && most[i] + 1500 <= now && 0 < most[i] <= now < 0x1_0000_0000
    {
      assert times[|most|] == now && times[i] + 1500 <= times[|most|];
    }
    forall i, j | 0 <= i < j < |most|
      ensures most[i] + 1500 <= most[j]
    {
      assert times[i] + 1500 <= times[j];
    }
  }

  /** As `Waits`, with the state. */
  ghost predicate WaitsOrFailed(h: Host, id: ConnectionId, to: Address, base: nat, requests: nat, last: nat, failed: bool) {
    exists i | 0 <= i < |h.connections| ::
      && h.connections[i].id == id && Unanswered(h.connections[i], to, requests, last) && Asked(h, to) == base + requests
      && !h.connections[i].state.Disconnecting? && h.connections[i].state.Failed? == failed
  }

  lemma UpdateInTurn(h: Host, call: Call, id: ConnectionId, to: Address, base: nat, n: nat, last: nat, h': Host)
    requires Settled(h) && IsUpdate(call) && h' == Do(h, call) && h'.created <= 65536 && SilentFrom(call, to)
    requires WaitsOrFailed(h, id, to, base, RequestsBy(n), last, n >= 5)
    requires last == 0 || Elapsed(call.now, last) >= 1500
    ensures WaitsOrFailed(h', id, to, base, RequestsBy(n + 1), if n < 4 then call.now else last, n + 1 >= 5)
  {
    var i :| 0 <= i < |h.connections| && h.connections[i].id == id && Unanswered(h.connections[i], to, RequestsBy(n), last)
      && !h.connections[i].state.Disconnecting? && h.connections[i].state.Failed? == (n >= 5);
    var c' := UpdateUnanswered(h, call, i, RequestsBy(n), last, h');
    var j :| 0 <= j < |h'.connections| && h'.connections[j] == c';
  }

  lemma OtherCallInTurn(h: Host, call: Call, id: ConnectionId, to: Address, base: nat, requests: nat, last: nat, failed: bool, h': Host)
    requires Settled(h) && !IsUpdate(call) && !call.DisconnectFrom? && h' == Do(h, call)
    requires WaitsOrFailed(h, id, to, base, requests, last, failed)
    ensures WaitsOrFailed(h', id, to, base, requests, last, failed)
  {
    var i :| 0 <= i < |h.connections| && h.connections[i].id == id && Unanswered(h.connections[i], to, requests, last)
      && !h.connections[i].state.Disconnecting? && h.connections[i].state.Failed? == failed;
    var c' := OtherCallOnUnanswered(h, call, i, requests, last, h');
    var j :| 0 <= j < |h'.connections| && h'.connections[j] == c';
  }

  lemma {:induction false} WaitsInTurn(h0: Host, id: ConnectionId, to: Address, base: nat, calls: seq<Call>, times: seq<nat>, h: Host)
    requires Settled(h0) && WaitsOrFailed(h0, id, to, base, 0, 0, false)
    requires AllSilentFrom(calls, to) && h == DoAll(h0, calls) && h.created <= 65536
    requires times == UpdateTimes(calls) && Spaced(times) && forall call | call in calls :: !call.DisconnectFrom?
    ensures WaitsOrFailed(h, id, to, base, RequestsBy(|times|), LastBy(times), |times| >= 5)
    decreases |calls|
  {
    if calls != [] {
      var most, call := calls[..|calls| - 1], calls[|calls| - 1];
      var before := DoAll(h0, most);
      var earlier := UpdateTimes(most);
      BeforeLast(h0, calls, before, h);
      if IsUpdate(call) {
        SpacedBefore(earlier, call.now);
        WaitsInTurn(h0, id, to, base, most, earlier, before);
        UpdateInTurn(before, call, id, to, base, |earlier|, LastBy(earlier), h);
      } else {
        assert times == earlier;
        WaitsInTurn(h0, id, to, base, most, earlier, before);
        OtherCallInTurn(before, call, id, to, base, RequestsBy(|times|), LastBy(times), |times| >= 5, h);
      }
    }
  }

  /** Unless the user disconnects: with updates at least 1500 ms apart, and whatever other calls between
      them, each of the first four sends a request and the fifth gives up. */
  lemma FifthUpdateGivesUp(g: Host, to: Address, calls: seq<Call>, h: Host)
    requires Starts(g, to) && AllSilentFrom(calls, to) && h == DoAll(Connect(g, to), calls) && h.created <= 65536
    requires Spaced(UpdateTimes(calls)) && forall call | call in calls :: !call.DisconnectFrom?
    ensures var times := UpdateTimes(calls);
            WaitsOrFailed(h, Wire(g.created + 1), to, Asked(g, to), RequestsBy(|times|), LastBy(times), |times| >= 5)
  {
    RunCreates(Connect(g, to), calls);
    StartWaits(g, to);
    var c := Connect(g, to).connections[|g.connections|];
    assert c.id == Wire(g.created + 1) && Unanswered(c, to, 0, 0);
    WaitsInTurn(Connect(g, to), Wire(g.created + 1), to, Asked(g, to), calls, UpdateTimes(calls), h);
  }
}
