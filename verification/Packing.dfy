/** The sending side of a channel: which queued messages one packet takes, and what one frame of
    packets takes (src/channel/Peer.hpp, src/channel/ChannelManager.cpp:107-161,
    src/connection/ConnectionManager.cpp:85-100). */
module Packing {
  import opened SequenceNumbers
  import opened Bytes

  /** ReliableMessageData */
  datatype ReliableMessage = ReliableMessage(
    message: Payload, sentTimeMs: nat, packetSequenceNum: SequenceNumber, sequenceNum: SequenceNumber)

  /** One channel Peer. */
  datatype PeerState = PeerState(
    generator: SequenceNumber, last: SequenceNumber, hasReliable: bool,
    reliable: seq<ReliableMessage>, unreliable: seq<Payload>,
    reliableToDeliver: seq<Payload>, unreliableToDeliver: seq<Payload>,
    store: map<SequenceNumber, Payload>)

  const NEW_PEER_STATE := PeerState(0, MAX_SEQUENCE_NUMBER, false, [], [], [], [], map[])

  predicate HasDataToSend(st: PeerState) {
    st.unreliable != [] || st.hasReliable
  }

  // ---------------------------------------------------------------------------------------------
  // One packet

  /** Time of this write, and the configured resend delay. */
  datatype Clock = Clock(now: nat, resendAfter: nat)

  /** Not sent yet (the time says 0), or sent long enough ago. */
  predicate Due(m: ReliableMessage, c: Clock) {
    !(m.sentTimeMs > 0 && c.now - m.sentTimeMs < c.resendAfter)
  }

  /** The fit test subtracts unsigned 64-bit values, so it wraps once more than 1336 bytes are used. */
  predicate Fits(size: nat, used: nat) {
    size <= (MAX_MESSAGE_SIZE_BYTES - used) % 0x1_0000_0000_0000_0000
  }

  /** Where the loop over the reliable queue stops, and how many bytes are used by then. */
  datatype Walk = Walk(stop: nat, used: nat)

  function WalkReliable(q: seq<ReliableMessage>, i: nat, used: nat, c: Clock): (w: Walk)
    requires i <= |q|
    ensures i <= w.stop <= |q|
    decreases |q| - i
  {
    if i == |q| || !Fits(|q[i].message|, used) then Walk(i, used)
    else if Due(q[i], c) then WalkReliable(q, i + 1, used + MESSAGE_HEADER_SIZE_BYTES + |q[i].message|, c)
    else WalkReliable(q, i + 1, used, c)
  }

  /** The messages of a stretch of the queue that are due, in queue order. */
  function DueEntries(q: seq<ReliableMessage>, c: Clock): seq<Entry> {
    if q == [] then []
    else (if Due(q[0], c) then [EntryOf(q[0])] else []) + DueEntries(q[1..], c)
  }

  function EntryOf(m: ReliableMessage): Entry {
    Entry(m.sequenceNum, RELIABLE_CHANNEL_ID, m.message)
  }

  function Stamp(m: ReliableMessage, packet: SequenceNumber, c: Clock): ReliableMessage {
    if Due(m, c) then m.(sentTimeMs := c.now, packetSequenceNum := packet) else m
  }

  /** The queue after the messages before `stop` were passed. */
  function StampUpTo(q: seq<ReliableMessage>, stop: nat, packet: SequenceNumber, c: Clock): seq<ReliableMessage>
    requires stop <= |q|
  {
    seq(|q|, i requires 0 <= i < |q| => if i < stop then Stamp(q[i], packet, c) else q[i])
  }

  /** How many unreliable messages are taken. */
  function TakeUnreliable(q: seq<Payload>, used: nat): (n: nat)
    ensures n <= |q|
  {
    if q == [] || !Fits(|q[0]|, used) then 0
    else 1 + TakeUnreliable(q[1..], used + MESSAGE_HEADER_SIZE_BYTES + |q[0]|)
  }

  function UnreliableEntries(q: seq<Payload>): seq<Entry> {
    seq(|q|, i requires 0 <= i < |q| => Entry(0, UNRELIABLE_CHANNEL_ID, q[i]))
  }

  datatype Written = Written(st: PeerState, entries: seq<Entry>)

  /** onWritePacket on a buffer that already holds `used` bytes: a reliable message that does not fit
      ends the call early, with the frame flag untouched. */
  function WritePacket(st: PeerState, used: nat, packet: SequenceNumber, c: Clock): Written {
    var w := WalkReliable(st.reliable, 0, used, c);
    var st1 := st.(reliable := StampUpTo(st.reliable, w.stop, packet, c));
    var entries := DueEntries(st.reliable[..w.stop], c);
    if w.stop < |st.reliable| then Written(st1, entries)
    else
      var n := TakeUnreliable(st.unreliable, w.used);
      Written(st1.(hasReliable := false, unreliable := st.unreliable[n..]),
              entries + UnreliableEntries(st.unreliable[..n]))
  }

  // ---------------------------------------------------------------------------------------------
  // Packet size

  /** Every entry passed the fit test at the size the packet had before it. */
  predicate AllFitted(entries: seq<Entry>, used: nat) {
    entries == [] ||
    (Fits(|entries[0].payload|, used) &&
     AllFitted(entries[1..], used + MESSAGE_HEADER_SIZE_BYTES + |entries[0].payload|))
  }

  function SizeAfter(entries: seq<Entry>, used: nat): nat {
    if entries == [] then used
    else SizeAfter(entries[1..], used + MESSAGE_HEADER_SIZE_BYTES + |entries[0].payload|)
  }

  lemma {:induction false} SizeAfterIsByteCount(entries: seq<Entry>, used: nat)
    ensures SizeAfter(entries, used) == used + |PutEntries(entries)|
  {
    if entries != [] {
      SizeAfterIsByteCount(entries[1..], used + MESSAGE_HEADER_SIZE_BYTES + |entries[0].payload|);
    }
  }

  lemma {:induction false} FittedConcat(a: seq<Entry>, b: seq<Entry>, used: nat)
    requires AllFitted(a, used) && AllFitted(b, SizeAfter(a, used))
    ensures AllFitted(a + b, used) && SizeAfter(a + b, used) == SizeAfter(b, SizeAfter(a, used))
  {
    if a == [] {
      assert a + b == b;
    } else {
      assert (a + b)[1..] == a[1..] + b;
      FittedConcat(a[1..], b, used + MESSAGE_HEADER_SIZE_BYTES + |a[0].payload|);
    }
  }

  lemma {:induction false} WalkFitted(q: seq<ReliableMessage>, i: nat, used: nat, c: Clock)
    requires i <= |q|
    ensures var w := WalkReliable(q, i, used, c);
            AllFitted(DueEntries(q[i..w.stop], c), used) && SizeAfter(DueEntries(q[i..w.stop], c), used) == w.used
    decreases |q| - i
  {
    var w := WalkReliable(q, i, used, c);
    if i < w.stop {
      var part := q[i..w.stop];
      assert part[0] == q[i] && part[1..] == q[i + 1..w.stop];
      if Due(q[i], c) {
        WalkFitted(q, i + 1, used + MESSAGE_HEADER_SIZE_BYTES + |q[i].message|, c);
        assert DueEntries(part, c) == [EntryOf(q[i])] + DueEntries(part[1..], c);
        assert DueEntries(part, c)[1..] == DueEntries(part[1..], c);
      } else {
        WalkFitted(q, i + 1, used, c);
        assert DueEntries(part, c) == DueEntries(part[1..], c);
      }
    }
  }

  lemma {:induction false} UnreliableFitted(q: seq<Payload>, used: nat)
    ensures AllFitted(UnreliableEntries(q[..TakeUnreliable(q, used)]), used)
  {
    var n := TakeUnreliable(q, used);
    if n > 0 {
      var used' := used + MESSAGE_HEADER_SIZE_BYTES + |q[0]|;
      UnreliableFitted(q[1..], used');
      assert UnreliableEntries(q[..n])[1..] == UnreliableEntries(q[1..][..n - 1]);
    }
  }

  lemma WriteFitted(st: PeerState, used: nat, packet: SequenceNumber, c: Clock)
    ensures AllFitted(WritePacket(st, used, packet, c).entries, used)
  {
    var w := WalkReliable(st.reliable, 0, used, c);
    var entries := DueEntries(st.reliable[..w.stop], c);
    WalkFitted(st.reliable, 0, used, c);
    assert st.reliable[0..w.stop] == st.reliable[..w.stop];
    if w.stop == |st.reliable| {
      UnreliableFitted(st.unreliable, w.used);
      FittedConcat(entries, UnreliableEntries(st.unreliable[..TakeUnreliable(st.unreliable, w.used)]), used);
    }
  }

  /** A packet made of fitted messages ends above 1341 bytes exactly if one of its messages was written
      at 1337 to 1341 bytes, where the fit test wraps. */
  lemma {:induction false} FittedSize(entries: seq<Entry>, used: nat)
    requires AllFitted(entries, used) && used <= MAX_MESSAGE_SIZE_BYTES
    ensures SizeAfter(entries, used) > 1341
       <==> exists k | 0 <= k < |entries| :: 1337 <= SizeAfter(entries[..k], used) <= 1341
  {
    if entries != [] {
      var used' := used + MESSAGE_HEADER_SIZE_BYTES + |entries[0].payload|;
      forall k | 1 <= k <= |entries|
        ensures SizeAfter(entries[..k], used) == SizeAfter(entries[1..][..k - 1], used')
      {
        assert entries[..k][1..] == entries[1..][..k - 1];
      }
      if used' <= MAX_MESSAGE_SIZE_BYTES {
        FittedSize(entries[1..], used');
        if k :| 0 <= k < |entries[1..]| && 1337 <= SizeAfter(entries[1..][..k], used') <= 1341 {
          assert 1337 <= SizeAfter(entries[..k + 1], used) <= 1341;
        }
        if k :| 0 <= k < |entries| && 1337 <= SizeAfter(entries[..k], used) <= 1341 {
          assert 1337 <= SizeAfter(entries[1..][..k - 1], used') <= 1341;
        }
      } else {
        assert SizeAfter(entries[..1], used) == used';
        SizeGrows(entries[1..], used');
        if k :| 0 <= k < |entries| && 1337 <= SizeAfter(entries[..k], used) <= 1341 {
          assert |entries| > 1;
        }
      }
    }
  }

  lemma {:induction false} SizeGrows(entries: seq<Entry>, used: nat)
    ensures SizeAfter(entries, used) >= used + MESSAGE_HEADER_SIZE_BYTES * |entries|
  {
    if entries != [] {
      SizeGrows(entries[1..], used + MESSAGE_HEADER_SIZE_BYTES + |entries[0].payload|);
    }
  }

  /** The size of every packet written into a fresh buffer: at most 1341 bytes, unless a message was
      written when 1337 to 1341 bytes were used. */
  lemma PacketSizeBound(st: PeerState, packet: SequenceNumber, c: Clock)
    ensures var entries := WritePacket(st, PACKET_HEADER_SIZE_BYTES, packet, c).entries;
            && (SizeAfter(entries, PACKET_HEADER_SIZE_BYTES) > 1341 <==>
                exists k | 0 <= k < |entries| :: 1337 <= SizeAfter(entries[..k], PACKET_HEADER_SIZE_BYTES) <= 1341)
  {
    WriteFitted(st, PACKET_HEADER_SIZE_BYTES, packet, c);
    FittedSize(WritePacket(st, PACKET_HEADER_SIZE_BYTES, packet, c).entries, PACKET_HEADER_SIZE_BYTES);
  }

  /** Past that point the bound does fail: three accepted messages make a packet of 2682 bytes. */
  lemma OversizePacket(a: Payload, b: Payload, packet: SequenceNumber, c: Clock)
    requires |a| == 1322 && |b| == 1336
    ensures SizeAfter(WritePacket(NEW_PEER_STATE.(unreliable := [a, [], b]), PACKET_HEADER_SIZE_BYTES, packet, c).entries,
                      PACKET_HEADER_SIZE_BYTES) == 2682 > MAX_PACKET_SIZE_BYTES
  {
    var q := [a, [], b];
    assert q[1..] == [[], b] && [[], b][1..] == [b];
    assert TakeUnreliable([b], 1341) == 1;
    assert TakeUnreliable([[], b], 1336) == 2;
    assert TakeUnreliable(q, 9) == 3;
    var entries := WritePacket(NEW_PEER_STATE.(unreliable := q), PACKET_HEADER_SIZE_BYTES, packet, c).entries;
    assert entries == [Entry(0, UNRELIABLE_CHANNEL_ID, a), Entry(0, UNRELIABLE_CHANNEL_ID, []), Entry(0, UNRELIABLE_CHANNEL_ID, b)];
    assert entries[1..][1..] == [Entry(0, UNRELIABLE_CHANNEL_ID, b)];
    assert SizeAfter(entries[1..][1..], 1341) == 2682;
    assert SizeAfter(entries[1..], 1336) == 2682;
  }

  // ---------------------------------------------------------------------------------------------
  // One frame: packets are written until there is nothing to send

  /** The largest message that fits a packet holding only its header. */
  const LARGEST_FITTING := MAX_MESSAGE_SIZE_BYTES - PACKET_HEADER_SIZE_BYTES

  predicate Small(st: PeerState) {
    && (forall m | m in st.reliable :: |m.message| <= LARGEST_FITTING)
    && (forall m | m in st.unreliable :: |m| <= LARGEST_FITTING)
  }

  /** A fixed, nonzero clock: what the call writes does not look unsent afterwards. */
  predicate Running(c: Clock) {
    c.now > 0 && c.resendAfter > 0
  }

  /** Nothing due before `i`, and everything before `i` fits a fresh packet. */
  predicate QuietBefore(q: seq<ReliableMessage>, i: nat, c: Clock)
    requires i <= |q|
  {
    forall j | 0 <= j < i :: !Due(q[j], c) && |q[j].message| <= LARGEST_FITTING
  }

  /** A fresh packet takes nothing: the first reliable message that matters is too large, or none
      matters and the first unreliable message is too large. */
  predicate Stuck(st: PeerState, c: Clock) {
    || (exists i | 0 <= i < |st.reliable| :: QuietBefore(st.reliable, i, c) && |st.reliable[i].message| > LARGEST_FITTING)
    || (!st.hasReliable && QuietBefore(st.reliable, |st.reliable|, c) &&
        st.unreliable != [] && |st.unreliable[0]| > LARGEST_FITTING)
  }

  function DueCount(q: seq<ReliableMessage>, c: Clock): nat {
    |DueEntries(q, c)|
  }

  ghost predicate Less(a: PeerState, b: PeerState, c: Clock) {
    var (da, db) := (DueCount(a.reliable, c), DueCount(b.reliable, c));
    || da < db
    || (da == db && |a.unreliable| < |b.unreliable|)
    || (da == db && |a.unreliable| == |b.unreliable| && !a.hasReliable && b.hasReliable)
  }

  lemma {:induction false} DueEntriesConcat(a: seq<ReliableMessage>, b: seq<ReliableMessage>, c: Clock)
    ensures DueEntries(a + b, c) == DueEntries(a, c) + DueEntries(b, c)
  {
    if a == [] {
      assert a + b == b;
    } else {
      assert (a + b)[1..] == a[1..] + b;
      DueEntriesConcat(a[1..], b, c);
    }
  }

  lemma DueEntriesGrow(q: seq<ReliableMessage>, i: nat, c: Clock)
    requires i < |q|
    ensures DueEntries(q[..i + 1], c) == DueEntries(q[..i], c) + (if Due(q[i], c) then [EntryOf(q[i])] else [])
  {
    assert q[..i + 1] == q[..i] + [q[i]];
    DueEntriesConcat(q[..i], [q[i]], c);
    assert [q[i]][1..] == [];
  }

  lemma {:induction false} NothingDue(q: seq<ReliableMessage>, c: Clock)
    ensures DueEntries(q, c) == [] <==> forall i | 0 <= i < |q| :: !Due(q[i], c)
  {
    if q != [] {
      NothingDue(q[1..], c);
      if DueEntries(q[1..], c) == [] {
        assert forall i | 1 <= i < |q| :: q[i] == q[1..][i - 1];
      }
    }
  }

  /** After a pass, exactly the due messages it did not reach are still due. */
  lemma StampedAreNotDue(q: seq<ReliableMessage>, stop: nat, packet: SequenceNumber, c: Clock)
    requires stop <= |q| && Running(c)
    ensures DueEntries(StampUpTo(q, stop, packet, c), c) == DueEntries(q[stop..], c)
    ensures DueEntries(q, c) == DueEntries(q[..stop], c) + DueEntries(StampUpTo(q, stop, packet, c), c)
  {
    var q' := StampUpTo(q, stop, packet, c);
    assert q' == q'[..stop] + q[stop..];
    assert q == q[..stop] + q[stop..];
    DueEntriesConcat(q'[..stop], q[stop..], c);
    DueEntriesConcat(q[..stop], q[stop..], c);
    NothingDue(q'[..stop], c);
  }

  /** The loop passes whatever precedes the first due or oversized message untouched. */
  lemma {:induction false} WalkQuiet(q: seq<ReliableMessage>, i: nat, c: Clock)
    requires i <= |q| && QuietBefore(q, i, c)
    ensures WalkReliable(q, 0, PACKET_HEADER_SIZE_BYTES, c) == WalkReliable(q, i, PACKET_HEADER_SIZE_BYTES, c)
  {
    if i > 0 {
      WalkQuiet(q, i - 1, c);
    }
  }

  /** The first message that is due or too large, if any. */
  function FirstLoud(q: seq<ReliableMessage>, i: nat, c: Clock): (r: nat)
    requires i <= |q| && QuietBefore(q, i, c)
    ensures i <= r <= |q| && QuietBefore(q, r, c)
    ensures r < |q| ==> Due(q[r], c) || |q[r].message| > LARGEST_FITTING
    decreases |q| - i
  {
    if i < |q| && !Due(q[i], c) && |q[i].message| <= LARGEST_FITTING then FirstLoud(q, i + 1, c) else i
  }

  lemma BlockedPass(st: PeerState, r: nat, packet: SequenceNumber, c: Clock)
    requires r < |st.reliable| && QuietBefore(st.reliable, r, c) && |st.reliable[r].message| > LARGEST_FITTING
    ensures WritePacket(st, PACKET_HEADER_SIZE_BYTES, packet, c) == Written(st, [])
  {
    WalkQuiet(st.reliable, r, c);
    QuietPass(st.reliable, r, packet, c);
  }

  lemma DuePass(st: PeerState, r: nat, packet: SequenceNumber, c: Clock)
    requires Running(c) && r < |st.reliable| && QuietBefore(st.reliable, r, c)
    requires Due(st.reliable[r], c) && |st.reliable[r].message| <= LARGEST_FITTING
    ensures !Stuck(st, c) && Less(WritePacket(st, PACKET_HEADER_SIZE_BYTES, packet, c).st, st, c)
  {
    var q := st.reliable;
    WalkQuiet(q, r, c);
    var w := WalkReliable(q, 0, PACKET_HEADER_SIZE_BYTES, c);
    assert w.stop > r;
    StampedAreNotDue(q, w.stop, packet, c);
    NothingDue(q[..w.stop], c);
    assert q[..w.stop][r] == q[r];
  }

  lemma UnreliablePass(st: PeerState, packet: SequenceNumber, c: Clock)
    requires Running(c) && HasDataToSend(st) && QuietBefore(st.reliable, |st.reliable|, c)
    ensures var w := WritePacket(st, PACKET_HEADER_SIZE_BYTES, packet, c);
            && (Stuck(st, c) ==> w == Written(st, []))
            && (!Stuck(st, c) ==> Less(w.st, st, c))
  {
    var q := st.reliable;
    WalkQuiet(q, |q|, c);
    QuietPass(q, |q|, packet, c);
    assert q[..|q|] == q && st.unreliable[0..] == st.unreliable;
  }

  /** One pass of the send loop over a peer with data: it takes nothing, and changes nothing, exactly if
      the peer is stuck; otherwise (due messages, unreliable messages, flag) gets smaller. */
  lemma PassProgressIff(st: PeerState, packet: SequenceNumber, c: Clock)
    requires HasDataToSend(st) && Running(c)
    ensures var w := WritePacket(st, PACKET_HEADER_SIZE_BYTES, packet, c);
            && (Stuck(st, c) ==> w == Written(st, []))
            && (!Stuck(st, c) ==> Less(w.st, st, c))
  {
    var r := FirstLoud(st.reliable, 0, c);
    if r == |st.reliable| {
      UnreliablePass(st, packet, c);
    } else if |st.reliable[r].message| > LARGEST_FITTING {
      BlockedPass(st, r, packet, c);
    } else {
      DuePass(st, r, packet, c);
    }
  }

  lemma QuietPass(q: seq<ReliableMessage>, i: nat, packet: SequenceNumber, c: Clock)
    requires i <= |q| && QuietBefore(q, i, c)
    ensures DueEntries(q[..i], c) == [] && StampUpTo(q, i, packet, c) == q
  {
    NothingDue(q[..i], c);
  }

  lemma SmallIsNeverStuck(st: PeerState, packet: SequenceNumber, c: Clock)
    requires Small(st)
    ensures !Stuck(st, c)
    ensures Small(WritePacket(st, PACKET_HEADER_SIZE_BYTES, packet, c).st)
  {
  }

  /** The state after `n` rounds of the send loop; it stays put once there is nothing to send. */
  function AfterPasses(st: PeerState, first: SequenceNumber, c: Clock, n: nat): PeerState {
    if n == 0 then st
    else
      var before := AfterPasses(st, first, c, n - 1);
      if HasDataToSend(before) then WritePacket(before, PACKET_HEADER_SIZE_BYTES, Wire(first + n - 1), c).st
      else before
  }

  // The condition under which the loop ends, read off the queues before it starts: fill packets
  // greedily and see whether a message comes up that no packet can take.

  predicate AllFitEmpty(q: seq<ReliableMessage>, i: nat)
    requires i <= |q|
  {
    forall j | 0 <= j < i :: |q[j].message| <= LARGEST_FITTING
  }

  /** The unreliable messages, `used` bytes into a packet; another packet starts, if it can, at `base`. */
  predicate RestFits(u: seq<Payload>, used: nat, base: nat, another: bool)
    decreases |u|, if used > base then 1 else 0
  {
    u == [] ||
    if Fits(|u[0]|, used) then RestFits(u[1..], used + MESSAGE_HEADER_SIZE_BYTES + |u[0]|, base, another)
    else used > base && another && RestFits(u, base, base, another)
  }

  /** The reliable messages from `i` on, `used` bytes into a packet, then the unreliable ones.  With the
      clock running another packet passes over what was written, if all of it fits an empty packet;
      with the clock at 0 it begins with all of it again. */
  predicate QueueFits(q: seq<ReliableMessage>, i: nat, used: nat, u: seq<Payload>, c: Clock)
    requires i <= |q|
    decreases |q| - i, if used > PACKET_HEADER_SIZE_BYTES then 1 else 0
  {
    if i == |q| then
      if c.now > 0 then RestFits(u, used, PACKET_HEADER_SIZE_BYTES, AllFitEmpty(q, |q|))
      else RestFits(u, used, used, true)
    else if Fits(|q[i].message|, used) then
      QueueFits(q, i + 1, used + (if Due(q[i], c) then MESSAGE_HEADER_SIZE_BYTES + |q[i].message| else 0), u, c)
    else
      c.now > 0 && used > PACKET_HEADER_SIZE_BYTES && AllFitEmpty(q, i) && QueueFits(q, i, PACKET_HEADER_SIZE_BYTES, u, c)
  }

  predicate LoopEnds(st: PeerState, c: Clock) {
    HasDataToSend(st) ==> QueueFits(st.reliable, 0, PACKET_HEADER_SIZE_BYTES, st.unreliable, c)
  }

  lemma {:induction false} WalkFits(q: seq<ReliableMessage>, i: nat, used: nat, u: seq<Payload>, c: Clock)
    requires i <= |q|
    ensures var w := WalkReliable(q, i, used, c);
            QueueFits(q, i, used, u, c)
            == if w.stop == |q| then QueueFits(q, |q|, w.used, u, c)
               else c.now > 0 && w.used > PACKET_HEADER_SIZE_BYTES && AllFitEmpty(q, w.stop) &&
                    QueueFits(q, w.stop, PACKET_HEADER_SIZE_BYTES, u, c)
    decreases |q| - i
  {
    if i < |q| && Fits(|q[i].message|, used) {
      WalkFits(q, i + 1, used + (if Due(q[i], c) then MESSAGE_HEADER_SIZE_BYTES + |q[i].message| else 0), u, c);
    }
  }

  lemma {:induction false} TakeFits(u: seq<Payload>, used: nat, base: nat, another: bool)
    requires used >= base
    ensures var n := TakeUnreliable(u, used);
            RestFits(u, used, base, another)
            <==> n == |u| || ((n > 0 || used > base) && another && RestFits(u[n..], base, base, another))
    decreases |u|
  {
    if u != [] && Fits(|u[0]|, used) {
      TakeFits(u[1..], used + MESSAGE_HEADER_SIZE_BYTES + |u[0]|, base, another);
      var n := TakeUnreliable(u, used);
      assert u[1..][n - 1..] == u[n..];
    } else {
      assert u[0..] == u;
    }
  }

  /** The same sizes everywhere, and the same messages due from `i` on. */
  predicate Alike(q: seq<ReliableMessage>, q': seq<ReliableMessage>, i: nat, c: Clock) {
    && |q'| == |q|
    && (forall j | 0 <= j < |q| :: |q'[j].message| == |q[j].message|)
    && (forall j | i <= j < |q| :: Due(q'[j], c) == Due(q[j], c))
  }

  lemma AlikeFitEmpty(q: seq<ReliableMessage>, q': seq<ReliableMessage>, c: Clock)
    requires Alike(q, q', |q|, c)
    ensures AllFitEmpty(q', |q|) <==> AllFitEmpty(q, |q|)
  {
    if AllFitEmpty(q', |q|) {
      assert forall j | 0 <= j < |q| :: |q'[j].message| == |q[j].message|;
    }
  }

  lemma {:induction false} AlikeFitsAlike(q: seq<ReliableMessage>, q': seq<ReliableMessage>, i: nat, used: nat, u: seq<Payload>, c: Clock)
    requires i <= |q| && Alike(q, q', i, c)
    ensures QueueFits(q', i, used, u, c) == QueueFits(q, i, used, u, c)
    ensures WalkReliable(q', i, used, c) == WalkReliable(q, i, used, c)
    decreases |q| - i, if used > PACKET_HEADER_SIZE_BYTES then 1 else 0
  {
    if i < |q| {
      if Fits(|q[i].message|, used) {
        AlikeFitsAlike(q, q', i + 1, used + (if Due(q[i], c) then MESSAGE_HEADER_SIZE_BYTES + |q[i].message| else 0), u, c);
      } else if used > PACKET_HEADER_SIZE_BYTES {
        AlikeFitsAlike(q, q', i, PACKET_HEADER_SIZE_BYTES, u, c);
      }
    }
  }

  /** With nothing due before `s`, a fresh packet reaches `s` exactly if all before it fits. */
  lemma {:induction false} QuietFits(q: seq<ReliableMessage>, i: nat, s: nat, u: seq<Payload>, c: Clock)
    requires i <= s <= |q| && forall j | i <= j < s :: !Due(q[j], c)
    requires AllFitEmpty(q, i)
    ensures QueueFits(q, i, PACKET_HEADER_SIZE_BYTES, u, c)
       <==> AllFitEmpty(q, s) && QueueFits(q, s, PACKET_HEADER_SIZE_BYTES, u, c)
    decreases s - i
  {
    if i < s && |q[i].message| <= LARGEST_FITTING {
      QuietFits(q, i + 1, s, u, c);
    }
  }

  lemma {:induction false} StampsAtZeroStayDue(q: seq<ReliableMessage>, q': seq<ReliableMessage>, c: Clock)
    requires Alike(q, q', 0, c)
    ensures DueCount(q', c) == DueCount(q, c)
  {
    if q != [] {
      StampsAtZeroStayDue(q[1..], q'[1..], c);
    }
  }

  lemma StuckDoesNotEnd(st: PeerState, c: Clock)
    requires Running(c) && Stuck(st, c)
    ensures !QueueFits(st.reliable, 0, PACKET_HEADER_SIZE_BYTES, st.unreliable, c)
  {
    var q := st.reliable;
    if i: nat :| i < |q| && QuietBefore(q, i, c) && |q[i].message| > LARGEST_FITTING {
      QuietFits(q, 0, i, st.unreliable, c);
    } else {
      QuietFits(q, 0, |q|, st.unreliable, c);
    }
  }

  lemma PassAtRunningClock(st: PeerState, packet: SequenceNumber, c: Clock)
    requires HasDataToSend(st) && Running(c)
    ensures LoopEnds(WritePacket(st, PACKET_HEADER_SIZE_BYTES, packet, c).st, c) <==> LoopEnds(st, c)
  {
    var (q, u) := (st.reliable, st.unreliable);
    var w := WalkReliable(q, 0, PACKET_HEADER_SIZE_BYTES, c);
    var q' := StampUpTo(q, w.stop, packet, c);
    WalkFits(q, 0, PACKET_HEADER_SIZE_BYTES, u, c);
    WalkReaches(q, 0, PACKET_HEADER_SIZE_BYTES, c);
    if w.stop < |q| {
      QuietFits(q', 0, w.stop, u, c);
      AlikeFitsAlike(q, q', w.stop, PACKET_HEADER_SIZE_BYTES, u, c);
    } else {
      var rest := u[TakeUnreliable(u, w.used)..];
      TakeFits(u, w.used, PACKET_HEADER_SIZE_BYTES, AllFitEmpty(q, |q|));
      QuietFits(q', 0, |q|, rest, c);
      assert Alike(q, q', |q|, c);
      AlikeFitEmpty(q, q', c);
      assert rest == [] ==> TakeUnreliable(u, w.used) == |u|;
      assert u[0..] == u;
    }
  }

  /** A walk stops on a message that does not fit, and never falls below where it began. */
  lemma {:induction false} WalkReaches(q: seq<ReliableMessage>, i: nat, used: nat, c: Clock)
    requires i <= |q|
    ensures var w := WalkReliable(q, i, used, c);
            w.used >= used && (w.stop < |q| ==> !Fits(|q[w.stop].message|, w.used))
    decreases |q| - i
  {
    if i < |q| && Fits(|q[i].message|, used) {
      WalkReaches(q, i + 1, used + (if Due(q[i], c) then MESSAGE_HEADER_SIZE_BYTES + |q[i].message| else 0), c);
    }
  }

  lemma PassAtZero(st: PeerState, packet: SequenceNumber, c: Clock)
    requires HasDataToSend(st) && c.now == 0 && c.resendAfter > 0
    ensures var st' := WritePacket(st, PACKET_HEADER_SIZE_BYTES, packet, c).st;
            && (LoopEnds(st', c) <==> LoopEnds(st, c))
            && (LoopEnds(st, c) ==> Less(st', st, c))
  {
    var (q, u) := (st.reliable, st.unreliable);
    var w := WalkReliable(q, 0, PACKET_HEADER_SIZE_BYTES, c);
    var q' := StampUpTo(q, w.stop, packet, c);
    WalkFits(q, 0, PACKET_HEADER_SIZE_BYTES, u, c);
    AlikeFitsAlike(q, q', 0, PACKET_HEADER_SIZE_BYTES, u, c);
    StampsAtZeroStayDue(q, q', c);
    if w.stop == |q| {
      var n := TakeUnreliable(u, w.used);
      WalkFits(q', 0, PACKET_HEADER_SIZE_BYTES, u[n..], c);
      TakeFits(u, w.used, w.used, true);
    }
  }

  /** A round of the loop neither spoils nor repairs the condition, and under it (due messages,
      unreliable messages, flag) gets smaller. */
  lemma PassKeepsLoopEnds(st: PeerState, packet: SequenceNumber, c: Clock)
    requires HasDataToSend(st) && c.resendAfter > 0
    ensures var st' := WritePacket(st, PACKET_HEADER_SIZE_BYTES, packet, c).st;
            && (LoopEnds(st', c) <==> LoopEnds(st, c))
            && (LoopEnds(st, c) ==> Less(st', st, c))
  {
    if c.now == 0 {
      PassAtZero(st, packet, c);
    } else {
      PassAtRunningClock(st, packet, c);
      PassProgressIff(st, packet, c);
      if Stuck(st, c) { StuckDoesNotEnd(st, c); }
    }
  }

  lemma {:induction false} SendLoopEnds(st: PeerState, first: SequenceNumber, c: Clock, k: nat) returns (n: nat)
    requires c.resendAfter > 0 && LoopEnds(AfterPasses(st, first, c, k), c)
    ensures !HasDataToSend(AfterPasses(st, first, c, n))
    decreases DueCount(AfterPasses(st, first, c, k).reliable, c),
              |AfterPasses(st, first, c, k).unreliable|, AfterPasses(st, first, c, k).hasReliable
  {
    var s := AfterPasses(st, first, c, k);
    n := k;
    if HasDataToSend(s) {
      PassKeepsLoopEnds(s, Wire(first + k), c);
      n := SendLoopEnds(st, first, c, k + 1);
    }
  }

  lemma {:induction false} SendLoopGoesOn(st: PeerState, first: SequenceNumber, c: Clock, n: nat)
    requires c.resendAfter > 0 && !LoopEnds(st, c)
    ensures !LoopEnds(AfterPasses(st, first, c, n), c)
  {
    if n > 0 {
      SendLoopGoesOn(st, first, c, n - 1);
      PassKeepsLoopEnds(AfterPasses(st, first, c, n - 1), Wire(first + n - 1), c);
    }
  }

  /** The send loop ends exactly if the queues meet the condition before it starts, whatever the clock. */
  lemma SendLoopEndsIff(st: PeerState, first: SequenceNumber, c: Clock)
    requires c.resendAfter > 0
    ensures (exists n: nat :: !HasDataToSend(AfterPasses(st, first, c, n))) <==> LoopEnds(st, c)
  {
    if LoopEnds(st, c) {
      assert AfterPasses(st, first, c, 0) == st;
      var n := SendLoopEnds(st, first, c, 0);
    } else {
      forall n: nat
        ensures HasDataToSend(AfterPasses(st, first, c, n))
      {
        SendLoopGoesOn(st, first, c, n);
      }
    }
  }

  // The same in closed form: with a running clock and less than 2^64 bytes queued, it is enough to look
  // at the first message that no empty packet can take.

  const ADDRESS_SPACE := 0x1_0000_0000_0000_0000

  function SizeOfRest(u: seq<Payload>): nat {
    if u == [] then 0 else MESSAGE_HEADER_SIZE_BYTES + |u[0]| + SizeOfRest(u[1..])
  }

  /** What the reliable messages from `i` on, and the unreliable ones, would take in one packet. */
  function SizeOfQueue(q: seq<ReliableMessage>, i: nat, u: seq<Payload>): nat
    requires i <= |q|
    decreases |q| - i
  {
    if i == |q| then SizeOfRest(u) else MESSAGE_HEADER_SIZE_BYTES + |q[i].message| + SizeOfQueue(q, i + 1, u)
  }

  /** How full the packet at hand is when greedy packing comes to the first message over 1327 bytes. */
  function OversizedInRest(u: seq<Payload>, used: nat): Option<nat> {
    if u == [] then None
    else if |u[0]| > LARGEST_FITTING then Some(used)
    else
      OversizedInRest(u[1..], (if Fits(|u[0]|, used) then used else PACKET_HEADER_SIZE_BYTES) + MESSAGE_HEADER_SIZE_BYTES + |u[0]|)
  }

  function OversizedInQueue(q: seq<ReliableMessage>, i: nat, used: nat, u: seq<Payload>, c: Clock): Option<nat>
    requires i <= |q|
    decreases |q| - i
  {
    if i == |q| then OversizedInRest(u, used)
    else if |q[i].message| > LARGEST_FITTING then Some(used)
    else
      OversizedInQueue(q, i + 1, (if Fits(|q[i].message|, used) then used else PACKET_HEADER_SIZE_BYTES) +
                                 (if Due(q[i], c) then MESSAGE_HEADER_SIZE_BYTES + |q[i].message| else 0), u, c)
  }

  predicate ComesLate(at: Option<nat>) {
    at.None? || at.value > MAX_MESSAGE_SIZE_BYTES
  }

  lemma {:induction false} LateRestFits(u: seq<Payload>, used: nat, base: nat, another: bool)
    requires used > MAX_MESSAGE_SIZE_BYTES && used + SizeOfRest(u) <= ADDRESS_SPACE
    ensures RestFits(u, used, base, another)
    decreases |u|
  {
    if u != [] {
      LateRestFits(u[1..], used + MESSAGE_HEADER_SIZE_BYTES + |u[0]|, base, another);
    }
  }

  /** Past 1336 bytes the unsigned subtraction wraps, and everything fits. */
  lemma {:induction false} LateQueueFits(q: seq<ReliableMessage>, i: nat, used: nat, u: seq<Payload>, c: Clock)
    requires i <= |q| && used > MAX_MESSAGE_SIZE_BYTES && used + SizeOfQueue(q, i, u) <= ADDRESS_SPACE
    ensures QueueFits(q, i, used, u, c)
    decreases |q| - i
  {
    if i < |q| {
      LateQueueFits(q, i + 1, used + (if Due(q[i], c) then MESSAGE_HEADER_SIZE_BYTES + |q[i].message| else 0), u, c);
    } else if c.now > 0 {
      LateRestFits(u, used, PACKET_HEADER_SIZE_BYTES, AllFitEmpty(q, |q|));
    } else {
      LateRestFits(u, used, used, true);
    }
  }

  lemma {:induction false} RestFitsIff(u: seq<Payload>, used: nat)
    requires used >= PACKET_HEADER_SIZE_BYTES && used + SizeOfRest(u) <= ADDRESS_SPACE
    ensures RestFits(u, used, PACKET_HEADER_SIZE_BYTES, true) <==> ComesLate(OversizedInRest(u, used))
    decreases |u|
  {
    if u != [] {
      if |u[0]| > LARGEST_FITTING {
        if used > MAX_MESSAGE_SIZE_BYTES { LateRestFits(u, used, PACKET_HEADER_SIZE_BYTES, true); }
      } else {
        var start := if Fits(|u[0]|, used) then used else PACKET_HEADER_SIZE_BYTES;
        RestFitsIff(u[1..], start + MESSAGE_HEADER_SIZE_BYTES + |u[0]|);
      }
    }
  }

  lemma {:induction false} QueueFitsIff(q: seq<ReliableMessage>, i: nat, used: nat, u: seq<Payload>, c: Clock)
    requires i <= |q| && Running(c) && AllFitEmpty(q, i)
    requires used >= PACKET_HEADER_SIZE_BYTES && used + SizeOfQueue(q, i, u) <= ADDRESS_SPACE
    ensures QueueFits(q, i, used, u, c) <==> ComesLate(OversizedInQueue(q, i, used, u, c))
    decreases |q| - i
  {
    if i == |q| {
      RestFitsIff(u, used);
    } else if |q[i].message| > LARGEST_FITTING {
      if used > MAX_MESSAGE_SIZE_BYTES { LateQueueFits(q, i, used, u, c); }
    } else {
      var start := if Fits(|q[i].message|, used) then used else PACKET_HEADER_SIZE_BYTES;
      QueueFitsIff(q, i + 1, start + (if Due(q[i], c) then MESSAGE_HEADER_SIZE_BYTES + |q[i].message| else 0), u, c);
    }
  }

  /** The send loop ends exactly if there is nothing to send, no message is over 1327 bytes, or the first
      such message comes up in a packet that already holds more than 1336 bytes. */
  lemma SendLoopEndsIffOversizedComesLate(st: PeerState, first: SequenceNumber, c: Clock)
    requires Running(c) && PACKET_HEADER_SIZE_BYTES + SizeOfQueue(st.reliable, 0, st.unreliable) <= ADDRESS_SPACE
    ensures (exists n: nat :: !HasDataToSend(AfterPasses(st, first, c, n)))
       <==> !HasDataToSend(st) || ComesLate(OversizedInQueue(st.reliable, 0, PACKET_HEADER_SIZE_BYTES, st.unreliable, c))
  {
    SendLoopEndsIff(st, first, c);
    QueueFitsIff(st.reliable, 0, PACKET_HEADER_SIZE_BYTES, st.unreliable, c);
  }

  lemma {:induction false} SmallRestFits(u: seq<Payload>, used: nat)
    requires used >= PACKET_HEADER_SIZE_BYTES && forall m | m in u :: |m| <= LARGEST_FITTING
    ensures RestFits(u, used, PACKET_HEADER_SIZE_BYTES, true)
    decreases |u|
  {
    if u != [] {
      var start := if Fits(|u[0]|, used) then used else PACKET_HEADER_SIZE_BYTES;
      SmallRestFits(u[1..], start + MESSAGE_HEADER_SIZE_BYTES + |u[0]|);
    }
  }

  lemma {:induction false} SmallQueueFits(q: seq<ReliableMessage>, i: nat, used: nat, u: seq<Payload>, c: Clock)
    requires i <= |q| && Running(c) && used >= PACKET_HEADER_SIZE_BYTES
    requires AllFitEmpty(q, |q|) && forall m | m in u :: |m| <= LARGEST_FITTING
    ensures QueueFits(q, i, used, u, c)
    decreases |q| - i
  {
    if i == |q| {
      SmallRestFits(u, used);
    } else {
      var start := if Fits(|q[i].message|, used) then used else PACKET_HEADER_SIZE_BYTES;
      SmallQueueFits(q, i + 1, start + (if Due(q[i], c) then MESSAGE_HEADER_SIZE_BYTES + |q[i].message| else 0), u, c);
    }
  }

  /** With messages of at most 1327 bytes and a running clock the loop always ends. */
  lemma SmallEnds(st: PeerState, c: Clock)
    requires Small(st) && Running(c)
    ensures LoopEnds(st, c)
  {
    SmallQueueFits(st.reliable, 0, PACKET_HEADER_SIZE_BYTES, st.unreliable, c);
  }

  /** Two messages that each fit an empty packet but not one together, both looking unsent. */
  predicate TooMuchForOne(st: PeerState) {
    && |st.reliable| == 2 && st.hasReliable
    && |st.reliable[0].message| <= 1322 && 1322 - |st.reliable[0].message| < |st.reliable[1].message|
    && st.reliable[0].sentTimeMs == 0 && st.reliable[1].sentTimeMs == 0
  }

  lemma OnlyTheFirstGoes(st: PeerState, packet: SequenceNumber, c: Clock)
    requires TooMuchForOne(st) && c.now == 0
    ensures TooMuchForOne(WritePacket(st, PACKET_HEADER_SIZE_BYTES, packet, c).st)
  {
    var q := st.reliable;
    var used := PACKET_HEADER_SIZE_BYTES + MESSAGE_HEADER_SIZE_BYTES + |q[0].message|;
    assert !Fits(|q[1].message|, used);
    assert WalkReliable(q, 1, used, c) == Walk(1, used);
    assert WalkReliable(q, 0, PACKET_HEADER_SIZE_BYTES, c) == Walk(1, used);
  }

  /** Why the clock must not be at 0: what is written then looks unsent again, and the loop sends the
      same message for ever. */
  lemma {:induction false} ClockAtZeroNeverEnds(st: PeerState, first: SequenceNumber, c: Clock, n: nat)
    requires TooMuchForOne(st) && c.now == 0
    ensures HasDataToSend(AfterPasses(st, first, c, n)) && TooMuchForOne(AfterPasses(st, first, c, n))
  {
    if n > 0 {
      ClockAtZeroNeverEnds(st, first, c, n - 1);
      OnlyTheFirstGoes(AfterPasses(st, first, c, n - 1), Wire(first + n - 1), c);
    }
  }

  /** Every packet the loop writes, and the state it leaves. */
  function Frame(st: PeerState, first: SequenceNumber, c: Clock): (PeerState, seq<seq<Entry>>)
    requires LoopEnds(st, c) && c.resendAfter > 0
    decreases DueCount(st.reliable, c), |st.unreliable|, st.hasReliable
  {
    if !HasDataToSend(st) then (st, [])
    else
      PassKeepsLoopEnds(st, first, c);
      var w := WritePacket(st, PACKET_HEADER_SIZE_BYTES, first, c);
      var rest := Frame(w.st, Wire(first + 1), c);
      (rest.0, [w.entries] + rest.1)
  }

  lemma {:induction false} FrameLeavesNothing(st: PeerState, first: SequenceNumber, c: Clock)
    requires LoopEnds(st, c) && c.resendAfter > 0
    ensures !HasDataToSend(Frame(st, first, c).0)
    decreases DueCount(st.reliable, c), |st.unreliable|, st.hasReliable
  {
    if HasDataToSend(st) {
      PassKeepsLoopEnds(st, first, c);
      FrameLeavesNothing(WritePacket(st, PACKET_HEADER_SIZE_BYTES, first, c).st, Wire(first + 1), c);
    }
  }

  function OnChannel(entries: seq<Entry>, channel: Byte): seq<Entry> {
    if entries == [] then []
    else (if entries[0].channelId == channel then [entries[0]] else []) + OnChannel(entries[1..], channel)
  }

  function Flatten(frame: seq<seq<Entry>>): seq<Entry> {
    if frame == [] then [] else frame[0] + Flatten(frame[1..])
  }

  lemma {:induction false} OnChannelConcat(a: seq<Entry>, b: seq<Entry>, channel: Byte)
    ensures OnChannel(a + b, channel) == OnChannel(a, channel) + OnChannel(b, channel)
  {
    if a == [] {
      assert a + b == b;
    } else {
      var head := if a[0].channelId == channel then [a[0]] else [];
      var rest := OnChannel(a[1..], channel);
      assert (a + b)[0] == a[0] && (a + b)[1..] == a[1..] + b;
      OnChannelConcat(a[1..], b, channel);
      assert head + (rest + OnChannel(b, channel)) == (head + rest) + OnChannel(b, channel);
    }
  }

  lemma {:induction false} OnOwnChannel(entries: seq<Entry>, channel: Byte, other: Byte)
    requires channel != other && forall e | e in entries :: e.channelId == channel
    ensures OnChannel(entries, channel) == entries && OnChannel(entries, other) == []
  {
    if entries != [] {
      assert forall e | e in entries[1..] :: e in entries;
      OnOwnChannel(entries[1..], channel, other);
    }
  }

  lemma {:induction false} DueEntriesMembers(q: seq<ReliableMessage>, c: Clock)
    ensures forall e | e in DueEntries(q, c) :: e.channelId == RELIABLE_CHANNEL_ID
    ensures forall i | 0 <= i < |q| && Due(q[i], c) :: EntryOf(q[i]) in DueEntries(q, c)
  {
    if q != [] {
      DueEntriesMembers(q[1..], c);
    }
  }

  lemma ChannelsOf(due: seq<Entry>, taken: seq<Entry>)
    requires forall e | e in due :: e.channelId == RELIABLE_CHANNEL_ID
    requires forall e | e in taken :: e.channelId == UNRELIABLE_CHANNEL_ID
    ensures OnChannel(due + taken, RELIABLE_CHANNEL_ID) == due
    ensures OnChannel(due + taken, UNRELIABLE_CHANNEL_ID) == taken
  {
    OnOwnChannel(due, RELIABLE_CHANNEL_ID, UNRELIABLE_CHANNEL_ID);
    OnOwnChannel(taken, UNRELIABLE_CHANNEL_ID, RELIABLE_CHANNEL_ID);
    OnChannelConcat(due, taken, RELIABLE_CHANNEL_ID);
    OnChannelConcat(due, taken, UNRELIABLE_CHANNEL_ID);
  }

  lemma UnreliableEntriesSplit(q: seq<Payload>, n: nat)
    requires n <= |q|
    ensures UnreliableEntries(q[..n]) + UnreliableEntries(q[n..]) == UnreliableEntries(q)
  {
  }

  /** What one pass writes, channel by channel. */
  lemma PassChannels(st: PeerState, used: nat, packet: SequenceNumber, c: Clock)
    ensures var w := WritePacket(st, used, packet, c);
            var stop := WalkReliable(st.reliable, 0, used, c).stop;
            && OnChannel(w.entries, RELIABLE_CHANNEL_ID) == DueEntries(st.reliable[..stop], c)
            && OnChannel(w.entries, UNRELIABLE_CHANNEL_ID) + UnreliableEntries(w.st.unreliable) == UnreliableEntries(st.unreliable)
  {
    var walk := WalkReliable(st.reliable, 0, used, c);
    var due := DueEntries(st.reliable[..walk.stop], c);
    DueEntriesMembers(st.reliable[..walk.stop], c);
    if walk.stop == |st.reliable| {
      var n := TakeUnreliable(st.unreliable, walk.used);
      ChannelsOf(due, UnreliableEntries(st.unreliable[..n]));
      UnreliableEntriesSplit(st.unreliable, n);
    } else {
      assert due + [] == due;
      ChannelsOf(due, []);
    }
  }

  /** Message `i` of the queue was written in one packet of the frame, and its record names that packet. */
  ghost predicate WrittenIn(m: ReliableMessage, m': ReliableMessage, frame: seq<seq<Entry>>, first: SequenceNumber, c: Clock) {
    exists k | 0 <= k < |frame| ::
      EntryOf(m) in frame[k] && m' == m.(sentTimeMs := c.now, packetSequenceNum := Wire(first + k))
  }

  /** A frame is complete and free of duplicates: its reliable messages are exactly the due ones, in
      queue order and once each; its unreliable messages are exactly the queued ones, in order and once
      each; every due message names the packet that carries it and no other record changes. */
  lemma {:induction false} FrameIsComplete(st: PeerState, first: SequenceNumber, c: Clock)
    requires LoopEnds(st, c) && Running(c) && HasDataToSend(st)
    ensures var f := Frame(st, first, c);
            && f.0 == st.(hasReliable := false, unreliable := [], reliable := f.0.reliable)
            && OnChannel(Flatten(f.1), RELIABLE_CHANNEL_ID) == DueEntries(st.reliable, c)
            && OnChannel(Flatten(f.1), UNRELIABLE_CHANNEL_ID) == UnreliableEntries(st.unreliable)
            && |f.0.reliable| == |st.reliable|
            && (forall i | 0 <= i < |st.reliable| ::
                  if Due(st.reliable[i], c) then WrittenIn(st.reliable[i], f.0.reliable[i], f.1, first, c)
                  else f.0.reliable[i] == st.reliable[i])
    decreases DueCount(st.reliable, c), |st.unreliable|, st.hasReliable
  {
    PassKeepsLoopEnds(st, first, c);
    var w := WritePacket(st, PACKET_HEADER_SIZE_BYTES, first, c);
    var next := Wire(first + 1);
    var rest := Frame(w.st, next, c);
    FrameChannels(st, first, c, rest.1);
    if HasDataToSend(w.st) {
      FrameIsComplete(w.st, next, c);
    } else {
      FrameEnds(st, first, c);
    }
    FrameStamps(st, first, c, rest);
  }

  /** The pass after which there is nothing to send reached the end of the reliable queue. */
  lemma FrameEnds(st: PeerState, first: SequenceNumber, c: Clock)
    requires Running(c) && HasDataToSend(st)
    requires !HasDataToSend(WritePacket(st, PACKET_HEADER_SIZE_BYTES, first, c).st)
    ensures var st' := WritePacket(st, PACKET_HEADER_SIZE_BYTES, first, c).st;
            DueEntries(st'.reliable, c) == [] && forall m | m in st'.reliable :: !Due(m, c)
  {
    var q := st.reliable;
    var w := WalkReliable(q, 0, PACKET_HEADER_SIZE_BYTES, c);
    assert w.stop == |q|;
    StampedAreNotDue(q, |q|, first, c);
    NothingDue(StampUpTo(q, |q|, first, c), c);
  }

  lemma FrameChannels(st: PeerState, first: SequenceNumber, c: Clock, rest: seq<seq<Entry>>)
    requires Running(c)
    ensures var w := WritePacket(st, PACKET_HEADER_SIZE_BYTES, first, c);
            && (OnChannel(Flatten(rest), RELIABLE_CHANNEL_ID) == DueEntries(w.st.reliable, c) ==>
                OnChannel(Flatten([w.entries] + rest), RELIABLE_CHANNEL_ID) == DueEntries(st.reliable, c))
            && (OnChannel(Flatten(rest), UNRELIABLE_CHANNEL_ID) == UnreliableEntries(w.st.unreliable) ==>
                OnChannel(Flatten([w.entries] + rest), UNRELIABLE_CHANNEL_ID) == UnreliableEntries(st.unreliable))
  {
    var w := WritePacket(st, PACKET_HEADER_SIZE_BYTES, first, c);
    var stop := WalkReliable(st.reliable, 0, PACKET_HEADER_SIZE_BYTES, c).stop;
    PassChannels(st, PACKET_HEADER_SIZE_BYTES, first, c);
    StampedAreNotDue(st.reliable, stop, first, c);
    assert ([w.entries] + rest)[1..] == rest;
    OnChannelConcat(w.entries, Flatten(rest), RELIABLE_CHANNEL_ID);
    OnChannelConcat(w.entries, Flatten(rest), UNRELIABLE_CHANNEL_ID);
  }

  lemma FrameStamps(st: PeerState, first: SequenceNumber, c: Clock, rest: (PeerState, seq<seq<Entry>>))
    requires Running(c)
    requires var w := WritePacket(st, PACKET_HEADER_SIZE_BYTES, first, c);
             && |rest.0.reliable| == |w.st.reliable|
             && (forall i | 0 <= i < |w.st.reliable| ::
                   if Due(w.st.reliable[i], c)
                   then WrittenIn(w.st.reliable[i], rest.0.reliable[i], rest.1, Wire(first + 1), c)
                   else rest.0.reliable[i] == w.st.reliable[i])
    ensures var w := WritePacket(st, PACKET_HEADER_SIZE_BYTES, first, c);
            forall i | 0 <= i < |st.reliable| ::
              if Due(st.reliable[i], c)
              then WrittenIn(st.reliable[i], rest.0.reliable[i], [w.entries] + rest.1, first, c)
              else rest.0.reliable[i] == st.reliable[i]
  {
    var q := st.reliable;
    var w := WritePacket(st, PACKET_HEADER_SIZE_BYTES, first, c);
    var stop := WalkReliable(q, 0, PACKET_HEADER_SIZE_BYTES, c).stop;
    var frame := [w.entries] + rest.1;
    forall i | 0 <= i < |q| && Due(q[i], c)
      ensures WrittenIn(q[i], rest.0.reliable[i], frame, first, c)
    {
      if i < stop {
        DueEntriesMembers(q[..stop], c);
        assert q[..stop][i] == q[i];
        assert EntryOf(q[i]) in frame[0];
      } else {
        var k :| 0 <= k < |rest.1| && EntryOf(q[i]) in rest.1[k] &&
          rest.0.reliable[i] == q[i].(sentTimeMs := c.now, packetSequenceNum := Wire(Wire(first + 1) + k));
        assert frame[k + 1] == rest.1[k];
        WireOfWire(first + 1, k);
      }
    }
  }
}
