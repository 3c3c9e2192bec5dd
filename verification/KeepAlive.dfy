/** Heartbeats and timeouts over whole runs: the noted times are the times of the last packet to and from an
    address, so a connection is kept alive, or dropped, by what really went out and came in
    (src/connection/ConnectionManager.cpp:79-107 and 237-260). */
module KeepAlive {
  import opened Bytes
  import opened Packing
  import opened Connections
  import opened Lifecycle
  import opened SingleConnections
  import Timeouts

  // ---------------------------------------------------------------------------------------------
  // updateSend notes the time of what it sent

  lemma PassSaysTo(h: Host, i: nat, c: Clock, h': Host, to: Address)
    requires i < |h.connections| && HasData(h, i) && h' == SendPass(h, i, c)
    ensures |SentTo(h'.sent, to)| == |SentTo(h.sent, to)| + (if h.connections[i].address == to then 1 else 0)
    ensures h.connections[i].address != to ==> SentTo(h'.sent, to) == SentTo(h.sent, to)
    ensures h'.connections == h.connections
  {
    OneMoreTo(h.sent, h'.sent[|h.sent|], to);
  }

  lemma {:induction false} LoopSaysTo(h: Host, i: nat, c: Clock, h': Host, to: Address)
    requires i < |h.connections| && Ends(h, i, c) && h' == SendAll(h, i, c)
    ensures h.connections[i].address != to ==> SentTo(h'.sent, to) == SentTo(h.sent, to)
    ensures |SentTo(h'.sent, to)| >= |SentTo(h.sent, to)|
    ensures h.connections[i].address == to ==> (|SentTo(h'.sent, to)| > |SentTo(h.sent, to)| <==> HasData(h, i))
    ensures h'.connections == h.connections
    decreases DueCount(PendingOf(h, i).reliable, c), |PendingOf(h, i).unreliable|, PendingOf(h, i).hasReliable
  {
    if HasData(h, i) {
      var h1 := SendPass(h, i, c);
      PassShrinks(h, i, c);
      PassSaysTo(h, i, c, h1, to);
      LoopSaysTo(h1, i, c, h', to);
    }
  }

  /** The time noted for a connection is that of the call if more has been sent to its address, and is
      unchanged if not. */
  predicate Notes(c: Connection, c': Connection, before: seq<seq<Byte>>, after: seq<seq<Byte>>, now: nat) {
    && |after| >= |before|
    && c' == c.(heartbeatSentMs := if |after| > |before| then now else c.heartbeatSentMs)
  }

  lemma FrameNotes(h: Host, k: nat, c: Clock, h': Host, i: nat)
    requires Apart(h.connections) && k < |h.connections| && i < |h.connections| && Ends(h, k, c) && h' == SendFrame(h, k, c)
    ensures |h'.connections| == |h.connections| && Apart(h'.connections)
    ensures var to := h.connections[i].address;
            if i == k then Notes(h.connections[i], h'.connections[i], SentTo(h.sent, to), SentTo(h'.sent, to), c.now)
            else h'.connections[i] == h.connections[i] && SentTo(h'.sent, to) == SentTo(h.sent, to)
  {
    LoopSaysTo(h, k, c, SendAll(h, k, c), h.connections[i].address);
  }

  lemma {:induction false} FramesNote(h: Host, k: nat, c: Clock, h': Host, i: nat)
    requires Apart(h.connections) && k <= |h.connections| && i < |h.connections| && AllEnd(h, c) && h' == SendUpTo(h, k, c)
    ensures |h'.connections| == |h.connections| && Apart(h'.connections)
    ensures var to := h.connections[i].address;
            if i < k then Notes(h.connections[i], h'.connections[i], SentTo(h.sent, to), SentTo(h'.sent, to), c.now)
            else h'.connections[i] == h.connections[i] && SentTo(h'.sent, to) == SentTo(h.sent, to)
    decreases k
  {
    if k > 0 {
      var before := SendUpTo(h, k - 1, c);
      FramesNote(h, k - 1, c, before, i);
      FrameNotes(before, k - 1, c, h', i);
    }
  }

  /** After updateSend the noted time of every connection is that of the call if packets went to its address,
      and as before if none did; nothing else about it changed. */
  lemma SendingNotes(h: Host, c: Clock, i: nat, h': Host)
    requires Settled(h) && AllEnd(h, c) && i < |h.connections| && h' == UpdateSend(h, c)
    ensures |h'.connections| == |h.connections|
    ensures var to := h.connections[i].address;
            Notes(h.connections[i], h'.connections[i], SentTo(h.sent, to), SentTo(h'.sent, to), c.now)
  {
    FramesNote(h, |h.connections|, c, h', i);
  }

  // ---------------------------------------------------------------------------------------------
  // Runs of whole calls

  /** A call of the interface as a program makes it: updateSend is one call. */
  datatype UserCall = Plain(call: Call) | UpdatingSend(c: Clock)

  predicate Whole(call: UserCall) {
    call.Plain? ==> !call.call.SendRound? && !call.call.SendDone?
  }

  /** An updateSend that would not return is no step. */
  function DoWhole(h: Host, call: UserCall): Host {
    match call
    case Plain(plain) => Do(h, plain)
    case UpdatingSend(c) => if AllEnd(h, c) then UpdateSend(h, c) else h
  }

  function DoWholes(h: Host, calls: seq<UserCall>): Host {
    if calls == [] then h else DoWhole(DoWholes(h, calls[..|calls| - 1]), calls[|calls| - 1])
  }

  /** When a call happens that can send anything. */
  function TimeOf(call: UserCall): nat {
    match call
    case UpdatingSend(c) => c.now
    case Plain(plain) => if plain.Receiving? then plain.now else 0
  }

  /** The time of the last call of the run that sent anything to this address, `start` if none did. */
  function LastSent(h: Host, calls: seq<UserCall>, to: Address, start: nat): nat {
    if calls == [] then start
    else
      var most := calls[..|calls| - 1];
      if |SentTo(DoWholes(h, calls).sent, to)| > |SentTo(DoWholes(h, most).sent, to)| then TimeOf(calls[|calls| - 1])
      else LastSent(h, most, to, start)
  }

  /** When the last heartbeat or user packet of a batch arrived from this address. */
  function LastIn(batch: seq<Incoming>, from: Address, start: nat): nat
    requires WholeHeaders(batch)
  {
    if batch == [] then start
    else
      var p := batch[|batch| - 1];
      if p.from == from && p.data[0] in {4, 5} then p.at else LastIn(batch[..|batch| - 1], from, start)
  }

  /** The same over a run. */
  function LastHeard(calls: seq<UserCall>, from: Address, start: nat): nat {
    if calls == [] then start
    else
      var call, before := calls[|calls| - 1], LastHeard(calls[..|calls| - 1], from, start);
      if call.Plain? && Timeouts.IsUpdate(call.call) then LastIn(call.call.batch, from, before) else before
  }

  lemma WholeCallSettles(h: Host, call: UserCall, h': Host)
    requires Settled(h) && h' == DoWhole(h, call) && h'.created <= 65536
    ensures Settled(h')
  {
    if call.Plain? {
      DoSettles(h, call.call);
    } else if h' != h {
      var calls := UpdateSendIsCalls(h, call.c);
      RunSettles(h, calls);
    }
  }

  lemma WholeCallCreates(h: Host, call: UserCall)
    ensures DoWhole(h, call).created >= h.created
  {
    if call.Plain? {
      DoCreates(h, call.call);
    } else if AllEnd(h, call.c) {
      var calls := UpdateSendIsCalls(h, call.c);
      RunCreates(h, calls);
    }
  }

  lemma {:induction false} RunOfWholesSettles(h: Host, calls: seq<UserCall>, h': Host)
    requires Settled(h) && h' == DoWholes(h, calls) && h'.created <= 65536
    ensures Settled(h') && h.created <= h'.created
    decreases |calls|
  {
    if calls != [] {
      var most := calls[..|calls| - 1];
      WholeCallCreates(DoWholes(h, most), calls[|calls| - 1]);
      RunOfWholesSettles(h, most, DoWholes(h, most));
      WholeCallSettles(DoWholes(h, most), calls[|calls| - 1], h');
    }
  }

  // ---------------------------------------------------------------------------------------------
  // What one call does to the noted times

  /** An id that is in use after the call and was given out before was in use before. */
  lemma WasThere(h: Host, call: UserCall, c': Connection, h': Host) returns (i: nat)
    requires Settled(h) && h' == DoWhole(h, call) && h'.created <= 65536 && Number(c'.id) <= h.created && c' in h'.connections
    ensures i < |h.connections| && h.connections[i].id == c'.id
  {
    if call.Plain? {
      DoFollows(h, call.call);
    } else if h' == h {
      SameConnectionsFollow(h, h');
    } else {
      var calls := UpdateSendIsCalls(h, call.c);
      RunFollows(h, calls);
    }
    i := OldIdWasThere(h, c', h');
  }

  predicate Established(c: Connection) {
    c.state.Connected? || c.state.Disconnecting?
  }

  /** What became of a connection that was up and is still there. */
  predicate Keeps(c: Connection, c': Connection, sentMore: bool, now: nat, heard: nat) {
    c' == c.(state := c'.state, heartbeatSentMs := if sentMore then now else c.heartbeatSentMs, heartbeatReceivedMs := heard)
    && Established(c')
  }

  lemma {:induction false} ConnectedHearsLast(c: Connection, batch: seq<Incoming>)
    requires WholeHeaders(batch) && c.state.Connected? && !Holds(batch, c.address, {DISCONNECT})
    ensures HearsAll(c, batch) == c.(heartbeatReceivedMs := LastIn(batch, c.address, c.heartbeatReceivedMs))
    decreases |batch|
  {
    if batch != [] {
      HoldsMore(batch, c.address, {DISCONNECT});
      ConnectedHearsLast(c, batch[..|batch| - 1]);
    }
  }

  lemma ReceivingKeeps(h: Host, batch: seq<Incoming>, now: nat, i: nat, h': Host, c': Connection)
    requires Settled(h) && WholeHeaders(batch) && h' == UpdateReceiveAll(h, batch, now) && h'.created <= 65536
    requires i < |h.connections| && Established(h.connections[i]) && c' in h'.connections && c'.id == h.connections[i].id
    ensures var c := h.connections[i];
            Keeps(c, c', |SentTo(h'.sent, c.address)| > |SentTo(h.sent, c.address)|, now,
                  LastIn(batch, c.address, c.heartbeatReceivedMs))
  {
    var c := h.connections[i];
    KeepsIdentity(c, batch);
    UpdateReceiveOnOne(h, batch, now, i, h');
    ReceivingSettles(h, batch, now);
    TheOneWithId(h', c', Ages(HearsAll(c, batch), now));
    UpdateKeeps(c, batch, now, c');
  }

  lemma UpdateKeeps(c: Connection, batch: seq<Incoming>, now: nat, c': Connection)
    requires WholeHeaders(batch) && Established(c) && c' == Ages(HearsAll(c, batch), now) && !c'.state.Disconnected?
    ensures Keeps(c, c', Says(HearsAll(c, batch), now) != [], now, LastIn(batch, c.address, c.heartbeatReceivedMs))
  {
    HearsGoodbye(c, batch);
    if c.state.Disconnecting? {
      LeavingHears(c, batch);
    } else {
      ConnectedHearsLast(c, batch);
    }
  }

  lemma TheOneWithId(h: Host, c: Connection, after: Connection)
    requires Distinct(h.connections) && c in h.connections && c.id == after.id && Became(h, after)
    ensures c == after && !after.state.Disconnected?
  {
  }

  lemma SendingKeeps(h: Host, c: Clock, i: nat, h': Host, c': Connection)
    requires Settled(h) && AllEnd(h, c) && h' == UpdateSend(h, c) && Settled(h')
    requires i < |h.connections| && Established(h.connections[i]) && c' in h'.connections && c'.id == h.connections[i].id
    ensures var k := h.connections[i];
            Keeps(k, c', |SentTo(h'.sent, k.address)| > |SentTo(h.sent, k.address)|, c.now, k.heartbeatReceivedMs)
  {
    SendingNotes(h, c, i, h');
    SameId(h', i, c');
  }

  lemma SameId(h: Host, i: nat, c: Connection)
    requires Distinct(h.connections) && i < |h.connections| && c in h.connections && c.id == h.connections[i].id
    ensures c == h.connections[i]
  {
  }

  /** The calls that send and receive nothing. */
  lemma QuietCallKeeps(h: Host, call: Call, i: nat, h': Host, c': Connection)
    requires Settled(h) && Settled(h') && h' == Do(h, call) && !Timeouts.IsUpdate(call) && !call.SendRound? && !call.SendDone?
    requires i < |h.connections| && Established(h.connections[i]) && c' in h'.connections && c'.id == h.connections[i].id
    ensures Keeps(h.connections[i], c', false, 0, h.connections[i].heartbeatReceivedMs) && h'.sent == h.sent
  {
    QuietCallLeaves(h, call, i, h');
    SameId(h', i, c');
  }

  lemma QuietCallLeaves(h: Host, call: Call, i: nat, h': Host)
    requires h' == Do(h, call) && !Timeouts.IsUpdate(call) && !call.SendRound? && !call.SendDone? && i < |h.connections|
    ensures h'.sent == h.sent && i < |h'.connections|
    ensures var (c, c') := (h.connections[i], h'.connections[i]);
            c' == c.(state := c'.state) && (c'.state == c.state || c'.state.Disconnecting?)
  {
    match call
    case ConnectTo(_) =>
    case DisconnectFrom(id) => Timeouts.DisconnectLeaves(h, id, i);
    case _ =>
  }

  lemma CallKeeps(h: Host, call: UserCall, i: nat, h': Host, c': Connection)
    requires Settled(h) && Whole(call) && h' == DoWhole(h, call) && h'.created <= 65536
    requires i < |h.connections| && Established(h.connections[i]) && c' in h'.connections && c'.id == h.connections[i].id
    ensures var c := h.connections[i];
            Keeps(c, c', |SentTo(h'.sent, c.address)| > |SentTo(h.sent, c.address)|, TimeOf(call),
                  if call.Plain? && Timeouts.IsUpdate(call.call) then LastIn(call.call.batch, c.address, c.heartbeatReceivedMs)
                  else c.heartbeatReceivedMs)
  {
    WholeCallSettles(h, call, h');
    if call.UpdatingSend? {
      if AllEnd(h, call.c) { SendingKeeps(h, call.c, i, h', c'); } else { SameId(h, i, c'); }
    } else if Timeouts.IsUpdate(call.call) {
      ReceivingKeeps(h, call.call.batch, call.call.now, i, h', c');
    } else {
      QuietCallKeeps(h, call.call, i, h', c');
    }
  }

  // ---------------------------------------------------------------------------------------------
  // Results

  predicate AllWhole(calls: seq<UserCall>) {
    forall call | call in calls :: Whole(call)
  }

  /** A connection `c0` as it is after a run of calls. */
  predicate Noted(h0: Host, calls: seq<UserCall>, c0: Connection, c: Connection) {
    && Established(c) && c.address == c0.address
    && c.heartbeatSentMs == LastSent(h0, calls, c0.address, c0.heartbeatSentMs)
    && c.heartbeatReceivedMs == LastHeard(calls, c0.address, c0.heartbeatReceivedMs)
  }

  /** Over any run of calls: as long as a connection that was CONNECTED is there, the time it notes as that of
      the last packet sent is the time of the last call that sent anything to its address, and the time it
      notes as that of the last packet received is when the last heartbeat or user packet came from there. */
  lemma {:induction false} NotedTimesAreTrue(h0: Host, c0: Connection, calls: seq<UserCall>, h: Host, c: Connection)
    requires Settled(h0) && c0 in h0.connections && c0.state.Connected?
    requires AllWhole(calls) && h == DoWholes(h0, calls) && h.created <= 65536
    requires c in h.connections && c.id == c0.id
    ensures Noted(h0, calls, c0, c)
    decreases |calls|
  {
    if calls == [] {
      var i :| 0 <= i < |h0.connections| && h0.connections[i] == c0;
      SameId(h0, i, c);
    } else {
      var most, call := calls[..|calls| - 1], calls[|calls| - 1];
      var before := DoWholes(h0, most);
      assert forall other | other in most :: other in calls;
      WholeCallCreates(before, call);
      RunOfWholesSettles(h0, most, before);
      IdIsOld(h0, c0);
      var i := WasThere(before, call, c, h);
      NotedTimesAreTrue(h0, c0, most, before, before.connections[i]);
      CallKeeps(before, call, i, h, c);
    }
  }

  lemma IdIsOld(h: Host, c: Connection)
    requires Settled(h) && c in h.connections
    ensures Number(c.id) <= h.created
  {
    var i :| 0 <= i < |h.connections| && h.connections[i] == c;
    assert ConnectionOk(h, i, 0);
  }

  /** A connection that was CONNECTED at `h0` and is after the calls, and an update at `now` whose packets do
      not say goodbye. */
  ghost predicate StaysInTouch(h0: Host, c0: Connection, calls: seq<UserCall>, h: Host, c: Connection, batch: seq<Incoming>) {
    && Settled(h0) && c0 in h0.connections && c0.state.Connected?
    && AllWhole(calls) && h == DoWholes(h0, calls) && h.created <= 65536
    && c in h.connections && c.id == c0.id && c.state.Connected?
    && WholeHeaders(batch) && !Holds(batch, c0.address, {DISCONNECT})
  }

  lemma InTouchNow(h0: Host, c0: Connection, calls: seq<UserCall>, h: Host, c: Connection, batch: seq<Incoming>, sent: nat, heard: nat)
    returns (i: nat)
    requires StaysInTouch(h0, c0, calls, h, c, batch)
    requires sent == LastSent(h0, calls, c0.address, c0.heartbeatSentMs)
    requires heard == LastHeard(calls, c0.address, c0.heartbeatReceivedMs)
    ensures Settled(h) && i < |h.connections| && h.connections[i] == c
    ensures c.address == c0.address && c.heartbeatSentMs == sent && c.heartbeatReceivedMs == heard
  {
    NotedTimesAreTrue(h0, c0, calls, h, c);
    RunOfWholesSettles(h0, calls, h);
    i :| 0 <= i < |h.connections| && h.connections[i] == c;
  }

  /** A heartbeat, and nothing else, goes out exactly if the last call that sent anything to the address, be it
      data or a heartbeat, was more than 1000 ms ago.  The connection is dropped, and reported down, exactly if
      the last heartbeat or user packet from the address came more than 5000 ms ago, those of this update
      included. */
  lemma KeptAliveByTraffic(h0: Host, c0: Connection, calls: seq<UserCall>, h: Host, c: Connection, batch: seq<Incoming>, now: nat,
                           sent: nat, heard: nat, h': Host)
    requires StaysInTouch(h0, c0, calls, h, c, batch)
    requires sent == LastSent(h0, calls, c0.address, c0.heartbeatSentMs)
    requires heard == LastIn(batch, c0.address, LastHeard(calls, c0.address, c0.heartbeatReceivedMs))
    requires h' == UpdateReceiveAll(h, batch, now) && h'.created <= 65536
    ensures SentTo(h'.sent, c0.address)
         == SentTo(h.sent, c0.address) + (if (now - sent) % 0x1_0000_0000 > 1000 then [ControlPacket(HEARTBEAT)] else [])
    ensures Has(h'.connections, c0.id) <==> (now - heard) % 0x1_0000_0000 <= 5000
    ensures Callbacks(h'.events, c0.id) == (if Has(h'.connections, c0.id) then [UpOf(c0)] else [UpOf(c0), DownOf(c0)])
  {
    var i := InTouchNow(h0, c0, calls, h, c, batch, sent, LastHeard(calls, c0.address, c0.heartbeatReceivedMs));
    UpdateSaysHeartbeat(h, batch, now, i, c0.address, sent, h');
    UpdateDropsIff(h, batch, now, i, h');
    DropsBy(h, c, now, heard, h');
  }

  lemma UpdateSaysHeartbeat(h: Host, batch: seq<Incoming>, now: nat, i: nat, to: Address, last: nat, h': Host)
    requires Settled(h) && i < |h.connections| && h.connections[i].state.Connected?
    requires h.connections[i].address == to && h.connections[i].heartbeatSentMs == last
    requires WholeHeaders(batch) && !Holds(batch, to, {DISCONNECT})
    requires h' == UpdateReceiveAll(h, batch, now) && h'.created <= 65536
    ensures SentTo(h'.sent, to)
         == SentTo(h.sent, to) + (if (now - last) % 0x1_0000_0000 > 1000 then [ControlPacket(HEARTBEAT)] else [])
  {
    Timeouts.HeartbeatKeepsPace(h, batch, now, i, h');
  }

  lemma DropsBy(h: Host, c: Connection, now: nat, last: nat, h': Host)
    requires Has(h'.connections, c.id) <==> Elapsed(now, last) <= HEARTBEAT_TIMEOUT_MS
    ensures Has(h'.connections, c.id) <==> (now - last) % 0x1_0000_0000 <= 5000
  {
  }

  lemma UpdateDropsIff(h: Host, batch: seq<Incoming>, now: nat, i: nat, h': Host)
    requires Settled(h) && i < |h.connections| && h.connections[i].state.Connected?
    requires WholeHeaders(batch) && !Holds(batch, h.connections[i].address, {DISCONNECT})
    requires h' == UpdateReceiveAll(h, batch, now) && h'.created <= 65536
    ensures var c := h.connections[i];
            && (Has(h'.connections, c.id) <==> Elapsed(now, LastIn(batch, c.address, c.heartbeatReceivedMs)) <= HEARTBEAT_TIMEOUT_MS)
            && Callbacks(h'.events, c.id) == (if Has(h'.connections, c.id) then [UpOf(c)] else [UpOf(c), DownOf(c)])
  {
    assert ConnectionOk(h, i, 0);
    ConnectedHearsLast(h.connections[i], batch);
    UpdateReceiveOnOne(h, batch, now, i, h');
  }
}
