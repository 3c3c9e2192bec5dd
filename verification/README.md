# Verification of the nsf reliable-messaging protocol

nsf extends the SFML network module with connections and with reliable and unreliable channels over UDP.
This project models the whole stack below the socket and proves what the protocol guarantees, and exactly
where each guarantee stops.

    dafny verify dfyconfig.toml

## What is modelled

Four layers, each twice: as a class with the fields, arrays and loops of the C++ class, and as functions on
values that say what an operation makes of the state. Every method of a class ensures that the new state is
that function of the old one; every property is proved about the functions.

| layer | functions and properties | class |
|---|---|---|
| sequence numbers | `SequenceNumbers` | |
| packet acknowledgement | `PacketAcks` | `PacketManagers.PacketPeer`, `PacketManagers.PacketManager` |
| bytes, packing, the send loop | `Bytes`, `Packing`, `SendFrames`, `Resending` | `ChannelManagers.Peer` |
| reliable and unreliable channel | `OrderedChannel`, `Channels`, `UnreliableChannel`, `UserCalls` | `ChannelManagers.Peer`, `ChannelManagers.ChannelManager` |
| connections, callbacks, peer tables | `Connections`, `Lifecycle`, `SingleConnections`, `Isolation`, `Timeouts`, `KeepAlive` | `ConnectionManagers.ConnectionManager` |

On top of them stand two systems.

* `Session`: two endpoints and a network that keeps every datagram ever sent and may deliver each of them any
  number of times, in any order, or never. Histories number messages and packets with unbounded integers; the
  code sees their values modulo 65536. `Guarantees`, `LossFreeRound`, `Losses` and `Limits` hold its results.
* `Handshake`: any number of client and server hosts, each with its connections and peer tables, on such a
  network. `Stories` reads off a run of this world what one host accepted for another, which packets it read,
  and whether what arrived met the conditions. `Lifting` proves that two hosts that have come up with each
  other once *are* a `Session` whose history is that story and whose deliveries are the log of the receive
  callback, so the results carry over to what the users are handed.

## What came out

* **No written reliable message is lost** as long as at most 1025 packets were sent in its direction, and
  1025 is exact: `Limits` builds a run of 1026 packets that loses one, because an ack bit only looks at a
  slot's state and not at the number stored in it. For runs of any length `Losses` says exactly when one is
  lost: it was never handed over, and some reply was read whose ack field spoke for its last packet anyway. Up
  to 32767 packets that is the stale slot of another packet speaking for it.
* **A message can be lost before it was ever written**: its packet number is still 0, so a report of packet
  0 removes it. This is the only other way (`LostExactlyByReportOfZero`), and one packet each way is enough
  (`UnwrittenMessageIsLost`).
* **Delivery is in order and exactly once** over any number of wraps, exactly as long as every arrival meets
  `OrderedChannel.Safe` (or is an old number whose key is occupied). The condition is weaker than "within
  32767 of the last delivered" for old messages and names the half-range case. A number ahead must not lie in
  the next block of 65536 unless it is the very next one; message 1 arriving before message 0 already breaks
  this, since the receiver starts at 65535. A session of at most 32769 reliable messages is in order if and
  only if message 0 arrives first.
* **No queued message is forgotten**: after every updateReceive the next updateSend writes exactly the queued
  messages never sent or last sent at least the resend delay ago, each to its connection's address
  (`Resending.NextFrameResends`).
* **The unreliable channel** adds no loss, repetition or reordering to what the network does to whole packets: the
  packets sent carry what the user sent, in order, and a user is handed, in order, what the packets read carried.
* **Connections do not touch each other**: what an update does to one of them, its peers and user included, is
  decided by that connection and its own packets; a disconnect of one id on a server spares all the others.
* **Heartbeats and timeouts follow the real traffic** over any run of calls: a heartbeat goes out exactly when
  nothing was sent to the address for over 1000 ms, and the connection is dropped exactly when nothing that
  counts came from there for over 5000 ms.
* **A loss-free round** of at most 33 packets clears the queue of everything it carried, whatever was lost
  before it. What any single reply removes, early or late, is an if-and-only-if (`ReplyRemovesIff`).
* **The send loop ends** if and only if the queues pass one greedy look before it starts. In closed form: there
  is nothing to send, no message is over 1327 bytes, or the first such message comes up in a packet that
  already holds more than 1336 bytes, where the unsigned subtraction wraps. A `Peer` accepts up to 1336 bytes,
  so a single accepted message can hang the loop (`OversizedNeverEnds`). At clock 0 what was written looks
  unsent, and two messages that do not fit one packet hang it too (`ClockAtZeroNeverEnds`).
* **A packet stays at or below 1341 bytes** unless a message was written when 1337 to 1341 bytes were used,
  where the unsigned subtraction wraps; three messages then make a packet of 2682 bytes.
* **The peer tables agree** and callbacks are balanced for up to 65536 connections ever made; a client that
  dials different addresses can tell its connections apart by id exactly up to that number.
* **A client is CONNECTED only with a server that came up with it before**, even with packets of earlier
  sessions on the network; two clients never connect.

The header of the packet manager names the algorithm's origin but the code has no stated bounds; the numbers
above are those of the code.

## Model

| member | source | states |
|---|---|---|
| `SequenceNumbers.SerialOrderIsOrder` | src/utils/Utils.hpp:11-22 | on wire values of unbounded numbers, "greater than" is the true order exactly within half a lap; on all pairs it is total and antisymmetric |
| `SequenceNumbers.WireIsInjectiveWithinALap` | src/InternalTypes.hpp:11 | two numbers less than 65536 apart have the same wire value only if they are equal |
| `SequenceNumbers.HighestIsTrueMax` | src/packetManager/PacketManager.cpp:125-126 | over any sequence of arrivals, each within half a lap of the highest so far, the highest-received counter is the true maximum modulo 65536, over any number of wraps |
| `PacketAcks.AckFieldBit` | src/packetManager/PacketManager.cpp:132-152 | bit 32-i of the field built from ring and highest R is set exactly if the slot of R-i is RECEIVED |
| `PacketAcks.AckBitsRoundTrip` | src/packetManager/PacketManager.cpp:132-196 | for every ring and every R, decoding the field built from them selects exactly R and those R-i, i from 1 to 32, whose slot is RECEIVED |
| `PacketAcks.ReportIsFresh` | src/packetManager/PacketManager.cpp:159-177 | a reported number names the packet that owns its slot, and that packet was not reported before |
| `PacketAcks.StepKeepsMeaning` | src/packetManager/PacketManager.cpp:113-130 | a sent and a received packet each keep the meaning of both rings |
| `PacketAcks.RunHasMeaning` | src/packetManager/PacketManager.cpp:113-199 | after any run, over any number of laps: a sent slot holds the last packet numbered into it and is ACKED exactly if that packet was reported; a received slot is RECEIVED exactly if some packet with that number modulo 1024 arrived |
| `PacketAcks.AckedAtMostOnce` | src/packetManager/PacketManager.cpp:55-74 | whatever headers arrive, each report of any run names only packets not reported before and whose slot no later packet has taken |
| `PacketAcks.AckBitMeaning` | src/packetManager/PacketManager.cpp:132-152 | after any run, ack bit i of the next header is set exactly if some packet with the number highest-i modulo 1024 arrived |
| `PacketManagers.PacketPeer.constructor` | src/packetManager/PacketManager.hpp:67-77 | the next packet is number 0, the highest received one counts as 65535, all slots are empty |
| `PacketManagers.PacketPeer.OnSendPacket` | src/packetManager/PacketManager.cpp:113-117 | overwrites exactly the slot of the number modulo 1024 |
| `PacketManagers.PacketPeer.OnReceivePacket` | src/packetManager/PacketManager.cpp:119-130 | raises the highest-received counter if the number is greater, and marks exactly its slot |
| `PacketManagers.PacketPeer.GenerateAckBits` | src/packetManager/PacketManager.cpp:132-152 | the loop that shifts left from R-1 yields the field whose meaning `PacketAcks.AckFieldBit` gives |
| `PacketManagers.PacketPeer.ProcessAckBits` | src/packetManager/PacketManager.cpp:154-199 | the loop that shifts right from R-32, and R itself last, returns exactly the selected numbers that still own their slot unacked, and marks exactly these |
| `PacketManagers.PacketPeer.ProcessAckBit` | src/packetManager/PacketManager.cpp:159-177 | one number: reported and marked if its slot holds it unacked, nothing otherwise |
| `PacketManagers.PacketManager.FindPeer` | src/packetManager/PacketManager.cpp:105-111 | finds the peer with an id exactly if there is one |
| `PacketManagers.PacketManager.OnConnected` | src/packetManager/PacketManager.cpp:76-88 | adds a new peer unless the id has one; the other peers keep their state |
| `PacketManagers.PacketManager.OnDisconnected` | src/packetManager/PacketManager.cpp:90-103 | removes exactly the peer with the id |
| `PacketManagers.PacketManager.OnSendPacket` | src/packetManager/PacketManager.cpp:55-74 | number, ack and ack bits of the next packet of this peer, zeros without one; no other peer changes |
| `PacketManagers.PacketManager.OnReceivePacket` | src/packetManager/PacketManager.cpp:34-53 | records the packet and returns what it newly acknowledges; no other peer changes |
| `Bytes.PacketHeaderRoundTrip` | src/connection/PacketHeader.cpp:16-32 | the nine big-endian bytes of a header are read back as that header, whatever follows |
| `Bytes.MessageHeaderRoundTrip` | src/channel/MessageHeader.cpp:10-22 | the five bytes of a message header, anywhere in a packet, are read back as that header |
| `Bytes.PacketHeaderBytes` | src/connection/PacketHeader.cpp:16-22 | the value of each of the nine bytes of a packet header at its position, most significant first |
| `Bytes.EntryBytes` | src/channel/MessageHeader.cpp:10-15 | the same for the five bytes in front of a message, which its payload follows |
| `Connections.ControlBytes` | src/connection/InternalPacketType.hpp:8-16 | the bytes of a request, an accept, a goodbye and a heartbeat |
| `Bytes.EntriesRoundTrip` | src/channel/ChannelManager.cpp:163-192 | the reading loop finds exactly the written sequence of (number, channel, payload), for payloads of at most 1336 bytes |
| `Bytes.PacketRoundTrip` | src/channel/ChannelManager.cpp:107-192 | a whole packet is read back as its header and its messages, in order |
| `Packing.PacketSizeBound` | src/channel/ChannelManager.cpp:117-160 | for any queues, a packet grows past 1341 bytes if and only if some prefix of it ended at 1337 to 1341 bytes |
| `Packing.SizeAfterIsByteCount` | src/channel/ChannelManager.cpp:139 | the size these results speak of is the number of bytes in the packet |
| `Packing.OversizePacket` | src/channel/ChannelManager.cpp:150 | three accepted messages that make a packet of 2682 bytes |
| `Packing.PassProgressIff` | src/channel/ChannelManager.cpp:120-160 | with data to send and the clock not at 0, a round changes nothing and writes nothing if the peer is stuck, and otherwise makes (due messages, unreliable messages, flag) smaller |
| `Packing.SmallIsNeverStuck` | src/channel/ChannelManager.cpp:126 | with messages of at most 1327 bytes a peer is not stuck and stays so |
| `Packing.SendLoopEndsIff` | src/connection/ConnectionManager.cpp:85-100 | for every clock the loop ends if and only if the queues meet a condition read off them before it starts: fill packets greedily, one look at each message, and no message comes up that does not fit where the next packet would begin |
| `Packing.PassKeepsLoopEnds` | src/channel/ChannelManager.cpp:117-160 | a round neither spoils nor repairs that condition, and under it (due messages, unreliable messages, flag) gets smaller |
| `Packing.SendLoopEndsIffOversizedComesLate` | src/channel/ChannelManager.cpp:126 | the same in closed form, with the clock not at 0 and less than 2^64 bytes queued: there is nothing to send, no message is over 1327 bytes, or the first such message comes up in a packet that already holds more than 1336 bytes |
| `Packing.SmallEnds` | src/channel/ChannelManager.cpp:126 | with messages of at most 1327 bytes and the clock not at 0 the loop ends |
| `Limits.OversizedNeverEnds` | src/channel/Peer.cpp:15 | a message of 1328 to 1336 bytes, which Peer::send accepts, keeps the loop going for ever when it is alone in the queue |
| `Packing.ClockAtZeroNeverEnds` | src/channel/ChannelManager.cpp:129-136 | at time 0, two messages that do not fit one packet keep the loop going for ever |
| `Packing.FrameIsComplete` | src/channel/ChannelManager.cpp:107-161 | with the clock not at 0, and whenever the loop ends, a frame holds exactly the due reliable messages in queue order and exactly the unreliable ones in order, each once; the record of every due message names the packet that carries it and no other record changes |
| `Resending.FrameResends` | src/channel/ChannelManager.cpp:129-136 | with the clock not at 0, a frame carries every queued message never sent or last sent at least the delay ago, and its record gets the packet and the time; every other message is in no packet and keeps its record |
| `Resending.NextFrameResends` | src/channel/ChannelManager.cpp:45-54 | after any updateReceive, the next updateSend writes exactly those messages of every connection, each into a new packet to its address: the flag is raised again as long as a message is queued |
| `Resending.NewMessageGoesOut` | src/channel/Peer.cpp:21-23 | a reliable message just queued is carried by a new packet to its address in the next updateSend, under the next number |
| `Resending.UnreliableGoesOut` | src/channel/ChannelManager.cpp:145-160 | every queued unreliable message is carried by a new packet to its address in the next updateSend, under the number 0 |
| `Resending.NothingIsLeft` | src/connection/ConnectionManager.cpp:85-100 | whenever it returns, updateSend leaves every connection without an unreliable message and with its flag lowered |
| `SendFrames.LoopSendsFrame` | src/connection/ConnectionManager.cpp:85-100 | the loop for one connection sends the packets of that frame to its address, in order and with consecutive numbers, and touches no other peer |
| `SendFrames.UpdateSendIsComplete` | src/connection/ConnectionManager.cpp:79-107 | whenever the loops end, updateSend leaves nothing to send, and what it sent is one frame per connection, each in one piece and in list order, and nothing else; with the clock not at 0 every frame is complete and free of duplicates |
| `OrderedChannel.JudgeIsRight` | src/channel/Peer.cpp:42-53 | the verdict (drop an old number, deliver the next, store any other under the key that stands for it) is right if and only if the number meets the arrival condition, in any lap |
| `OrderedChannel.RunFromIsMaximal` | src/channel/Peer.cpp:59-68 | the run behind the last delivered number is as long as the store allows |
| `OrderedChannel.DrainDeliversRun` | src/channel/Peer.cpp:59-68 | one ascending pass over the store delivers the whole run |
| `OrderedChannel.LapTurnsOnEmptyStore` | src/channel/Peer.cpp:55-76 | when the number after the last delivered one starts a new lap, the store is empty |
| `OrderedChannel.DeliverKeepsOrder` | src/channel/Peer.cpp:55-76 | the arrival of the next number keeps: delivered are the numbers below the least missing one, stored are exactly those received above it, with their payloads |
| `OrderedChannel.ArrivalKeepsOrderIff` | src/channel/Peer.cpp:36-78 | an arrival keeps the refinement of the reorder buffer if and only if it meets the arrival condition or is an old number whose key is occupied |
| `OrderedChannel.RunInOrderIff` | src/channel/Peer.cpp:36-78 | over any sequence of arrivals, with any number of wraps, every state is in order if and only if every arrival met that condition |
| `OrderedChannel.ShortSessionInOrderIff` | src/channel/Peer.hpp:39 | with at most 32769 messages, every state is in order if and only if the first arrival is message 0 |
| `OrderedChannel.OvertakenFirstMessageIsLost` | src/channel/Peer.cpp:48-62 | message 1 arriving before message 0 is delivered, and message 0 is dropped afterwards |
| `UnreliableChannel.ReadingByChannel` | src/channel/Peer.cpp:36-41 | reading a packet appends its unreliable messages to those waiting, in order, feeds its reliable ones to the reorder buffer, in order, and ignores every other channel |
| `UnreliableChannel.UnreliableFlow` | src/channel/ChannelManager.cpp:145-160 | in every reachable state of a session: the packets sent carry, in order, exactly the unreliable messages accepted, up to those still queued; what was handed over and what waits is, in the order of reading, exactly what the packets read carried |
| `UserCalls.SendReaches` | src/channel/ChannelManager.cpp:19-43 | a broadcast reaches every peer, one that excludes a peer every other, a unicast that peer alone: there the message is last in its queue, a reliable one unsent under the next number and with the flag raised; a message over 1336 bytes changes nothing |
| `UserCalls.UpdateHandsOver` | src/channel/ChannelManager.cpp:45-70 | an update hands over, for every peer, the waiting reliable messages, then the waiting unreliable ones, each queue in order, and nothing else; nothing waits afterwards, and the flag is raised exactly where reliable messages are queued |
| `Channels.ReceiveAppends` | src/channel/Peer.cpp:55-67 | what was delivered earlier never changes; deliveries are only added |
| `ChannelManagers.Peer.constructor` | src/channel/Peer.hpp:36-48 | a new peer numbers from 0 and has delivered 65535 last |
| `ChannelManagers.Peer.Send` | src/channel/Peer.cpp:11-34 | a message over 1336 bytes is refused; a reliable one is queued unsent under the next number and raises the frame flag; an unreliable one is queued |
| `ChannelManagers.Peer.OnMessageReceived` | src/channel/Peer.cpp:36-78 | by channel and number: queued, dropped, stored if its key is free, or delivered with the run behind it; `UnreliableChannel.ReadingByChannel` and `OrderedChannel.ArrivalKeepsOrderIff` say what that comes to |
| `ChannelManagers.Peer.DeliverStored` | src/channel/Peer.cpp:59-68 | the loop over the map in key order is the drain that `OrderedChannel.DrainDeliversRun` describes |
| `ChannelManagers.Peer.EraseDelivered` | src/channel/Peer.cpp:70-76 | exactly the keys above the last delivered number stay |
| `ChannelManagers.Peer.Write` | src/channel/ChannelManager.cpp:115-160 | the bytes appended to the packet are those of the messages taken, and the queues, records and flag change accordingly; an early return leaves flag and unreliable queue alone |
| `ChannelManagers.Peer.WriteReliable` | src/channel/ChannelManager.cpp:120-142 | every due message before the first that does not fit is written and stamped with time and packet; `Resending.FrameResends` says which are due |
| `ChannelManagers.Peer.WriteUnreliable` | src/channel/ChannelManager.cpp:145-160 | the longest prefix of the queue that passes the fit test is written and removed |
| `ChannelManagers.Peer.Read` | src/channel/ChannelManager.cpp:171-191 | every message of a packet reaches the peer, in order |
| `ChannelManagers.Peer.RemoveAckedMessages` | src/channel/ChannelManager.cpp:202-211 | exactly the messages whose last packet is among the acked ones are removed, the others keep their order |
| `ChannelManagers.Peer.Deliver` | src/channel/ChannelManager.cpp:49-69 | the two loops that empty the queues hand over what `UserCalls.UpdateHandsOver` says; the flag says whether reliable messages are queued |
| `ChannelManagers.ChannelManager.constructor` | src/channel/ChannelManager.cpp:10-17 | no peers; a resend delay of 0 means 200 ms |
| `ChannelManagers.ChannelManager.FindPeer` | src/channel/ChannelManager.cpp:214-220 | finds the peer with an id exactly if there is one |
| `ChannelManagers.ChannelManager.OnConnected` | src/channel/ChannelManager.cpp:72-83 | adds a new peer unless the id has one; the other peers keep their state |
| `ChannelManagers.ChannelManager.OnDisconnected` | src/channel/ChannelManager.cpp:85-97 | removes exactly the peer with the id and keeps the order of the others |
| `ChannelManagers.ChannelManager.HasDataToWrite` | src/channel/ChannelManager.cpp:99-105 | true exactly if there is a peer with unreliable messages or a raised flag |
| `ChannelManagers.ChannelManager.OnWritePacket` | src/channel/ChannelManager.cpp:107-161 | fills the packet from this peer only; without a peer nothing happens |
| `ChannelManagers.ChannelManager.OnReadPacket` | src/channel/ChannelManager.cpp:163-192 | hands a well-formed packet to this peer only; without a peer nothing happens |
| `ChannelManagers.ChannelManager.OnPacketAcked` | src/channel/ChannelManager.cpp:194-212 | removes acked messages of this peer only |
| `ChannelManagers.ChannelManager.Send` | src/channel/ChannelManager.cpp:19-43 | exactly the addressed peers are offered the message, each once; `UserCalls.SendReaches` says who they are and what they get |
| `ChannelManagers.ChannelManager.UpdateReceive` | src/channel/ChannelManager.cpp:45-70 | every peer hands over what it holds, in list order, and re-arms its flag |
| `Session.SubmitKeepsSender` | src/channel/Peer.cpp:11-34 | accepting a message keeps: queued messages are accepted ones with ascending numbers, written ones name a packet that carries them |
| `Session.EmitKeepsSender` | src/connection/ConnectionManager.cpp:85-100 | a round of the send loop keeps that every datagram is the bytes of its header and of accepted messages |
| `Session.DeliverReads` | src/connection/ConnectionManager.cpp:378-379 | a datagram of the other end is read as exactly what that end wrote |
| `Session.DeliverKeepsLink` | src/connection/ConnectionManager.cpp:378-379 | delivering any datagram, again or late, keeps every invariant of the opposite direction |
| `Session.ReportIsTrue` | src/packetManager/PacketManager.cpp:154-199 | up to 1025 packets a reported number was sent and received |
| `Session.PlayKeepsInv` | src/NSFImpl.cpp:79-94 | every reachable state of the two-endpoint system keeps the invariants of both directions |
| `Guarantees.AcksAreTrue` | src/packetManager/PacketManager.cpp:113-199 | up to 1025 packets, however late, duplicated or reordered the packets that carry the acks are, everything reported was sent and received |
| `Guarantees.NoWrittenMessageIsLost` | src/channel/ChannelManager.cpp:194-212 | up to 1025 packets every written message is still queued or was handed to the receiving channel, and an accepted message is missing exactly if an ack removed it unwritten |
| `Guarantees.LostExactlyByReportOfZero` | src/channel/Peer.hpp:20 | in any run a step loses a message exactly if the message is queued unwritten and the step reads a report of packet 0 |
| `Guarantees.DeliveryIsInOrder` | src/channel/Peer.cpp:36-78 | while every arrival met the arrival condition, the delivered messages are exactly the accepted ones before the first number that has not arrived |
| `Guarantees.EmptyQueueMeansAllDelivered` | src/channel/ChannelManager.cpp:205-211 | an empty queue at the sender means that everything accepted was delivered, in order and once, under the conditions of the two results above |
| `Guarantees.ShortSessionStaysOrderedIff` | src/channel/Peer.hpp:39 | with at most 32769 messages a packet breaks the arrival condition exactly if nothing was delivered yet and its first reliable message is not message 0 |
| `Limits.WrittenMessageIsLost` | src/packetManager/PacketManager.cpp:137-143 | a run of 1026 packets after which a written message is neither queued nor received |
| `Limits.LossBoundIsExact` | src/packetManager/PacketManager.cpp:137-143 | runs of at most n packets never lose a written message if and only if n is at most 1025 |
| `Limits.UnwrittenMessageIsLost` | src/channel/ChannelManager.cpp:207-208 | a run of one packet each way after which a message accepted but never written is gone: the report of packet 0 removes it |
| `LossFreeRound.PlayKeepsClean` | src/packetManager/PacketManager.cpp:159-165 | in every reachable state no written message that is still queued waits for a packet already acknowledged |
| `LossFreeRound.AckWindow` | src/packetManager/PacketManager.cpp:179-196 | for packets of any lap, an ack field selects the number it names and those of the 32 numbers before it whose bit is set, and nothing else |
| `LossFreeRound.SelectedIff` | src/packetManager/PacketManager.cpp:132-196 | what the ack field of a reply selects, in terms of what had arrived: the number it names, and those of the 32 before it for whose number modulo 1024 some packet had arrived |
| `LossFreeRound.ReplyRemovesIff` | src/channel/ChannelManager.cpp:205-211 | in any run, over any laps of rings and counters and however late the reply: reading it removes a queued message if and only if the slot of its last packet still holds that packet's number and the ack field selects it |
| `LossFreeRound.RoundClearsLast33` | src/channel/ChannelManager.cpp:205-211 | a reply that acks the last packet sent, and returns before further sends, removes exactly what that packet carried last and what those of the 32 before it carried last for whose number modulo 1024 something had arrived (of the last lap) |
| `LossFreeRound.RoundClearsFrame` | src/channel/ChannelManager.cpp:205-211 | a frame of at most 33 packets that all arrived, whatever was lost before it, is cleared as a whole by a reply that acks its last packet and returns before further sends |
| `LossFreeRound.LastArrivedIsAcked` | src/packetManager/PacketManager.cpp:125-126 | up to 32767 packets a reply written when the last packet had arrived acks that packet |
| `Losses.StepRemovesIff` | src/channel/ChannelManager.cpp:205-211 | in any run, a step takes a written message out of the queue if and only if it reads a reply as in `LossFreeRound.ReplyRemovesIff` |
| `Losses.WrittenMessageIsLostIff` | src/channel/ChannelManager.cpp:194-212 | in any run of any length, a written message is neither queued nor handed to the receiving channel if and only if it was not handed over and some step of the run removed it in that way |
| `Losses.LostByStaleSlotIff` | src/packetManager/PacketManager.cpp:137-143 | up to 32767 packets, a step loses a written message if and only if it reads a reply in which the stale slot of another packet with the same number modulo 1024 speaks for the last packet that carried it |
| `Connections.FindAddress` | src/connection/ConnectionManager.cpp:116-122 | the first connection with the address, or none |
| `ConnectionManagers.ConnectionManager.constructor` | src/connection/ConnectionManager.cpp:18-24 | no connections, no peers, ids start after 0 |
| `ConnectionManagers.ConnectionManager.Connect` | src/connection/ConnectionManager.cpp:26-47 | a client without a connection to the address gets one that requests, with five attempts and the next id; otherwise nothing changes |
| `ConnectionManagers.ConnectionManager.Disconnect` | src/connection/ConnectionManager.cpp:49-61 | a client, or the invalid id, makes every connection disconnect; a server only the one with the id, and the others are spared as `Isolation.DisconnectSparesOthers` says |
| `ConnectionManagers.ConnectionManager.OnConnected` | src/NSFImpl.cpp:25-31 | the connection is marked, both managers get a peer, the user is told |
| `ConnectionManagers.ConnectionManager.OnDisconnected` | src/NSFImpl.cpp:32-38 | only a connection that was up: both managers drop the peer, the user is told |
| `ConnectionManagers.ConnectionManager.OnReceivePacket` | src/connection/ConnectionManager.cpp:275-387 | by kind of packet and state of the sender's connection: the new state of connections, peers, callbacks |
| `ConnectionManagers.ConnectionManager.ReadPacket` | src/connection/ConnectionManager.cpp:378-379 | the messages go to the channel peer, the header to the packet peer, and what that reports back to the channel peer |
| `ConnectionManagers.ConnectionManager.ProcessRequesting` | src/connection/ConnectionManager.cpp:185-217 | waits, asks again, or gives up |
| `ConnectionManagers.ConnectionManager.ProcessDeciding` | src/connection/ConnectionManager.cpp:219-235 | accepts at once and comes up |
| `ConnectionManagers.ConnectionManager.ProcessConnected` | src/connection/ConnectionManager.cpp:237-260 | heartbeat and timeout, by 32-bit differences |
| `ConnectionManagers.ConnectionManager.ProcessDisconnecting` | src/connection/ConnectionManager.cpp:262-273 | says goodbye and is disconnected |
| `ConnectionManagers.ConnectionManager.UpdateConnections` | src/connection/ConnectionManager.cpp:148-183 | one round per connection, in order, each followed by the down callback if it ended disconnected |
| `ConnectionManagers.ConnectionManager.EraseDisconnected` | src/connection/ConnectionManager.cpp:69-76 | exactly the disconnected connections go, the others keep their order |
| `Lifecycle.RemainingStayInOrder` | src/connection/ConnectionManager.cpp:69-76 | what stays are the connections at exactly the positions that are not disconnected, in ascending order |
| `ConnectionManagers.ConnectionManager.UpdateReceive` | src/NSFImpl.cpp:79-84 | all arrived packets, then the update, then every peer hands over what it holds, once, to the log of the receive callback |
| `ConnectionManagers.ConnectionManager.SendPacket` | src/connection/ConnectionManager.cpp:87-97 | one user packet: numbered, filled and sent to the connection's address |
| `ConnectionManagers.ConnectionManager.SendPackets` | src/connection/ConnectionManager.cpp:85-100 | when the loop of the connection ends, it sends the whole frame of the connection |
| `ConnectionManagers.ConnectionManager.UpdateSend` | src/connection/ConnectionManager.cpp:79-107 | when the loop of every connection ends: a frame for every connection in order; a connection that sent notes the time, as `KeepAlive.SendingNotes` says |
| `ConnectionManagers.ConnectionManager.SendMessage` | src/NSFImpl.cpp:91-94 | the message is offered to exactly the addressed peers |
| `Lifecycle.RunSettles` | src/connection/ConnectionManager.cpp:26-107 | every run of calls with at most 65536 connections made keeps identities, tables and callbacks in step, and leaves no disconnected connection behind |
| `Lifecycle.PeerTablesAgree` | src/NSFImpl.cpp:25-58 | between calls, ids and addresses are pairwise distinct and both peer tables hold exactly the ids of the connections that came up |
| `Lifecycle.NoMissingOrDoubledPeer` | src/packetManager/PacketManager.cpp:36-102 | in every reachable state, and inside every call, a connection that comes up has no peer yet, and one that reads, sends or goes down has both of its peers: the assertions that look for a missing or doubled peer never fire |
| `Lifecycle.CallbacksAreBalanced` | src/connection/ConnectionManager.cpp:400-415 | an id is told as up at most once and as down at most once and only afterwards, for the same address; it has peers exactly in between, no connection after, and nothing was handed over for it before |
| `Lifecycle.GoneMeansReportedDown` | src/connection/ConnectionManager.cpp:69-76 | a connection that came up and is gone was reported up and down exactly once, with its id and address; one that never came up was not reported |
| `Lifecycle.ConnectionsOnlyMoveOn` | src/connection/ConnectionManager.cpp:148-235 | over any run a connection keeps id and address, never requests or decides again, and never comes back from disconnecting |
| `Lifecycle.UpdateSendIsCalls` | src/connection/ConnectionManager.cpp:79-107 | updateSend is a run of the rounds that the results on runs quantify over |
| `Lifecycle.IdsTellApartIff` | src/connection/ConnectionManager.cpp:45 | a client that dials different addresses has distinct ids if and only if it made at most 65536 connections |
| `SingleConnections.BatchIsHeard` | src/connection/ConnectionManager.cpp:275-387 | what the packets of a batch do to one connection is what those from its own address do to it alone, in order |
| `SingleConnections.UpdateAges` | src/connection/ConnectionManager.cpp:148-183 | what an update does to one connection, and what it sends to its address, depends on that connection alone |
| `SingleConnections.UpdateReceiveOnOne` | src/connection/ConnectionManager.cpp:63-77 | over a whole call: its next state, its packets, its callbacks and whether it is still there |
| `SingleConnections.UpdateGoesInOrder` | src/connection/ConnectionManager.cpp:148-183 | an update of all connections is their updates one after the other: its packets, in order, are what they say in list order, and its callbacks what they report in list order |
| `Isolation.UpdateIsIsolated` | src/connection/ConnectionManager.cpp:63-77 | two hosts alike at one connection and its peers, whatever else they have, are so after the same update, in which the user is told and handed the same and the same packets go to the address |
| `Isolation.DisconnectSparesOthers` | src/connection/ConnectionManager.cpp:56-60 | on a server, disconnecting an id leaves every connection with another id its record and peers, and the next update makes of it, sends to it, tells and hands its user exactly what the same update does without the disconnect |
| `SingleConnections.RequestingHears` | src/connection/ConnectionManager.cpp:308-362 | a requesting connection not told goodbye comes up exactly if an accept or a heartbeat is among the packets |
| `Timeouts.SilentConnectionIsDroppedIff` | src/connection/ConnectionManager.cpp:253-259 | with nothing arriving from its address, whatever else arrives, a connection survives the update exactly if it was heard within five seconds, and is reported down exactly if not |
| `Timeouts.HeartbeatKeepsPace` | src/connection/ConnectionManager.cpp:237-251 | unless told goodbye, a connected one is sent a heartbeat by an update exactly if the time noted of the last packet to it is more than a second old, and nothing else; if it is still there, the noted time is at most a second old afterwards |
| `Timeouts.DisconnectEnds` | src/connection/ConnectionManager.cpp:49-61 | after disconnect, the next update ends every connection it named, whatever arrives: gone with its peers and reported down if it had been reported up. It sends a goodbye, and nothing else, if and only if no DISCONNECT from that address arrives in the same update |
| `Timeouts.GoodbyeEnds` | src/connection/ConnectionManager.cpp:329-345 | a DISCONNECT in a batch ends the connection in the same update, whatever its state and whatever else arrives; nothing is sent in return, and it is reported down if it was reported up, be it in the same update |
| `KeepAlive.SendingNotes` | src/connection/ConnectionManager.cpp:102-105 | after updateSend the noted time of a connection is that of the call if packets went to its address, and is unchanged if none did |
| `KeepAlive.NotedTimesAreTrue` | src/connection/ConnectionManager.cpp:79-107 | over any run of calls: the times noted for a connection that was CONNECTED are that of the last call that sent anything to its address, and the arrival of the last heartbeat or user packet from there |
| `KeepAlive.KeptAliveByTraffic` | src/connection/ConnectionManager.cpp:237-260 | so, after any run of calls and without a DISCONNECT: an updateReceive sends a heartbeat, and nothing else, exactly if the last call that sent anything to the address was more than 1000 ms ago, and drops the connection and tells the user exactly if the last heartbeat or user packet came more than 5000 ms ago |
| `Timeouts.AtMostFourRequests` | src/connection/ConnectionManager.cpp:185-217 | for any connection of any reachable client, whatever other calls are made and whatever arrives from elsewhere: while nothing arrives from its address, at most four requests go there, the user is told nothing, and it has failed only if there were four |
| `Timeouts.FifthUpdateGivesUp` | src/connection/ConnectionManager.cpp:192-216 | the same connection, unless the user disconnects: with updates 1500 ms apart the first four send a request each and the fifth gives up |
| `Handshake.ConnectedMeansAnswered` | src/connection/ConnectionManager.cpp:308-367 | a client's connection is CONNECTED only if the remote is a server that came up with this client |
| `Handshake.ServerComesUpFirst` | src/connection/ConnectionManager.cpp:219-235 | the server had come up with the client already before the step in which the client comes up |
| `Handshake.ClientsNeverConnect` | src/connection/ConnectionManager.cpp:286-306 | two clients that request each other never connect, nor does a client with itself |
| `Handshake.AnswerConnects` | src/connection/ConnectionManager.cpp:346-362 | on any host with any other connections and traffic: a requesting connection not told goodbye is reported up by an update exactly if an accept or a heartbeat from its address arrives, and is CONNECTED afterwards if what arrived is recent |
| `Handshake.ServerAccepts` | src/connection/ConnectionManager.cpp:284-306 | a server without a connection to an address sends it one accept, is CONNECTED with it and tells its user, in the update in which the request arrives; it notes the accept as sent and the request as heard |
| `Handshake.HandshakeCompletes` | src/connection/ConnectionManager.cpp:219-252 | a client and a server without a connection to each other, whatever else they have and receive: once the request arrives and a recent answer comes back, both ends are CONNECTED after one connect and three calls of updateReceive; request and accept are there to be delivered |
| `Lifting.DoShows` | src/NSFImpl.cpp:25-94 | every call of a host is some actions of its endpoint, with the same messages accepted, the same ones in the log of the receive callback, the same numbers queued, written and removed, and the arrival condition met by the same packets |
| `Lifting.WorldIsSession` | src/NSFImpl.cpp:18-94 | in every reachable state of the world, two hosts that came up with each other at most once are the endpoints of a reachable session: same peers, same datagrams, a history that is the story of the run, and deliveries that are the logs of the receive callbacks |
| `Lifting.UsersSeeOrder` | src/NSFImpl.cpp:66-94 | the reliable messages in the log of one user's receive callback are the other's in order, once each and without a gap, if every user packet read met the arrival condition in the receiving channel's state when it came |
| `Lifting.ShortSessionsSeeOrder` | src/channel/Peer.hpp:39 | with at most 32769 reliable messages, every user packet met the condition if and only if the first reliable message read had sequence number 0, and then the user sees them in order |
| `Lifting.UsersSeeEverything` | src/NSFImpl.cpp:66-94 | when the queue has run empty and the other end is still up, the reliable messages in the log of its user's receive callback are exactly what the first user sent, if at most 1025 user packets were sent, every one read met the arrival condition, and no header read reported packet 0 while a message was queued unwritten |
| `Lifting.UsersSeeUnreliable` | src/NSFImpl.cpp:66-94 | the packets from one host to the other carry, in order, the unreliable messages its user sent, up to those still queued; the packets read are among them; the log of the other user's receive callback holds, in the order of reading, exactly what these carried, up to what the end of the connection cut off |

## Left out

- Sockets, port binding, address lookup and the artificial drop counter: replaced by the networks of the two systems.
- Round-trip times: floating point that no protocol state depends on.
- Real clocks: times are natural numbers passed in. A message's send time is a float of milliseconds in the source and a natural number here, so rounding of large times is not captured.
- The log of the receive callback is kept per peer; in which order the peers come is stated by `ChannelManagers.ChannelManager.UpdateReceive` only.
- updateSend reads the clock once per packet while writing; here one call sees one time.
- Callbacks that call back into the library: they change containers while these are walked. User callbacks are entries of a log.
- Malformed or forged packets: the reading loop does not check that a message ends inside the packet, and `GetEntries` is None there; results on reading are for packets that this code wrote.
- Packets of an earlier session between the same two addresses, for the results on streams and loss: there is no session id. The handshake results allow them.
- ChannelManagers.ChannelManager.UpdateReceive: hands over and re-arms peer by peer; the source walks the list twice. No peer depends on another, and user callbacks are not modelled to change the list in between.
- Packing.PassProgressIff: requires a clock not at 0, where a round can rewrite the same messages without getting on; `Packing.PassKeepsLoopEnds` holds for every clock.
- ConnectionManagers.ConnectionManager.UpdateSend: requires that the loop of every connection ends; otherwise the call does not return, which no postcondition can speak of. `Packing.SendLoopEndsIff` says exactly when that is.
- ConnectionManagers.ConnectionManager.SendPackets: requires that the loop of the connection ends, for the same reason.
- ChannelManagers.Peer.Read: requires that every message ends inside the packet; on another packet the source copies bytes from behind the buffer.
- ChannelManagers.ChannelManager.OnReadPacket: requires the same.
- ConnectionManagers.ConnectionManager.ReadPacket: requires the same.
- ConnectionManagers.ConnectionManager.OnReceivePacket: requires the same and a whole header; on a shorter packet the source switches on an uninitialised type.
- ConnectionManagers.ConnectionManager.UpdateReceive: requires the same of every packet that arrived.
- Connections are records in a sequence that the class reassigns, as the source keeps them by value in a vector; the two managers hold their peers as objects.
- A failed assertion is modelled as a build without assertions: the call returns as the code after it says.
- Sizes in memory, logging, the example program, the unused NetworkPlayer, the unused sent-packet counter and the unimplemented getServerPeerId.
