/** Wrapping 16-bit sequence numbers (src/InternalTypes.hpp, src/utils/Utils.hpp).

    Proofs number things with unbounded integers and look at the wire value of a number,
    its remainder modulo 65536.  A counter that starts at 65535 starts at the wire value of -1. */
module SequenceNumbers {
  type SequenceNumber = x: int | 0 <= x < 65536

  /** PeerID and ConnectionID. */
  type ConnectionId = SequenceNumber

  const MAX_SEQUENCE_NUMBER: SequenceNumber := 65535

  /** ceil(65535 / 2) */
  const HALF_MAX_SEQUENCE_NUMBER: int := 32768

  function Wire(n: int): SequenceNumber {
    n % 65536
  }

  /** The stretch of 65536 consecutive numbers that `n` lies in. */
  function Lap(n: int): int {
    n / 65536
  }

  predicate SequenceGreaterThan(s1: SequenceNumber, s2: SequenceNumber) {
    || (s1 > s2 && s1 - s2 <= HALF_MAX_SEQUENCE_NUMBER)
    || (s1 < s2 && s2 - s1 > HALF_MAX_SEQUENCE_NUMBER)
  }

  predicate SequenceEqualOrGreaterThan(s1: SequenceNumber, s2: SequenceNumber) {
    s1 == s2 || SequenceGreaterThan(s1, s2)
  }

  /** How far `a` and `b` may be apart for the serial comparison to be the true one.
      At exactly half a lap the code decides by wire value, so the two must share a lap. */
  predicate WithinHalfLap(a: int, b: int) {
    || -HALF_MAX_SEQUENCE_NUMBER < a - b < HALF_MAX_SEQUENCE_NUMBER
    || ((a - b == HALF_MAX_SEQUENCE_NUMBER || b - a == HALF_MAX_SEQUENCE_NUMBER) && Lap(a) == Lap(b))
  }

  lemma WireParts(n: int)
    ensures n == 65536 * Lap(n) + Wire(n)
  {
  }

  /** Adding without leaving the lap. */
  lemma WireShift(n: int, j: int)
    requires 0 <= Wire(n) + j < 65536
    ensures Lap(n + j) == Lap(n) && Wire(n + j) == Wire(n) + j
  {
  }

  lemma WireOfWire(n: int, k: int)
    ensures Wire(Wire(n) + k) == Wire(n + k)
  {
  }

  /** On numbers less than a lap apart the serial comparison of the wire values is the order of
      the numbers exactly when they are within half a lap; on all pairs it is a total,
      antisymmetric choice. */
  lemma SerialOrderIsOrder(a: int, b: int)
    requires -65536 < a - b < 65536
    ensures (SequenceGreaterThan(Wire(a), Wire(b)) <==> a > b) <==> a == b || WithinHalfLap(a, b)
    ensures Wire(a) != Wire(b) ==>
              (SequenceGreaterThan(Wire(a), Wire(b)) <==> !SequenceGreaterThan(Wire(b), Wire(a)))
    ensures Wire(a) == Wire(b) ==> !SequenceGreaterThan(Wire(a), Wire(b))
  {
  }

  lemma WireIsInjectiveWithinALap(a: int, b: int)
    requires Wire(a) == Wire(b) && -65536 < a - b < 65536
    ensures a == b
  {
  }

  function Max(a: int, b: int): int {
    if a > b then a else b
  }

  /** The running "highest received" counter after the packets `arrivals` came in, in that order
      (the update in PacketPeer::onReceivePacket). */
  function HighestOf(start: SequenceNumber, arrivals: seq<nat>): SequenceNumber {
    if arrivals == [] then start
    else
      var before := HighestOf(start, arrivals[..|arrivals| - 1]);
      var last := Wire(arrivals[|arrivals| - 1]);
      if SequenceGreaterThan(last, before) then last else before
  }

  function TrueMax(start: int, arrivals: seq<nat>): int {
    if arrivals == [] then start
    else Max(TrueMax(start, arrivals[..|arrivals| - 1]), arrivals[|arrivals| - 1])
  }

  /** Over any number of laps, the counter is the wire value of the true maximum as long as every
      arrival is within half a lap of the maximum before it. */
  lemma {:induction false} HighestIsTrueMax(start: int, arrivals: seq<nat>)
    requires forall i :: 0 <= i < |arrivals| ==> WithinHalfLap(arrivals[i], TrueMax(start, arrivals[..i]))
    ensures HighestOf(Wire(start), arrivals) == Wire(TrueMax(start, arrivals))
  {
    if arrivals != [] {
      var k := |arrivals| - 1;
      var init := arrivals[..k];
      forall i | 0 <= i < |init|
        ensures WithinHalfLap(init[i], TrueMax(start, init[..i]))
      {
        assert init[..i] == arrivals[..i];
      }
      HighestIsTrueMax(start, init);
      SerialOrderIsOrder(arrivals[k], TrueMax(start, init));
    }
  }
}
