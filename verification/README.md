# A verified model of the TCP offload engine

The repository is a TCP/IP stack for network cards, written as small hardware processes that talk
through FIFOs. Each process keeps static registers and tables and does one step per clock. This
project models the processes with the most state and arithmetic and proves what the system
promises over every run of them.

How it is modelled:

- A process is a class whose fields are its registers, tables (arrays) and streams (`seq`). Each
  method is one clock step, or one branch of it, and is proved equal to a step function on values.
- Runs are arbitrary interleavings: an action list picks which process steps next, or what arrives
  from outside. Theorems named `RunKeeps`, `RunIs...` and the like hold for every list of actions.
- A register of N bits is an integer below 2^N, and every assignment that can wrap goes through a
  conversion (`Words.To16`, `To18`, `To32`). Where a theorem needs the unbounded position behind a
  wrapped copy, the position travels beside it as ghost data that no step reads.
- A stream of 64-byte words is a list of beats with data, keep mask and `last`. `Beats.Carries` says
  once what a list of beats means as bytes; all realigners are stated with it.

The modules, by what they prove:

| Dafny module | part of the engine |
|---|---|
| `Words`, `RingMemory`, `Beats` | widths, a session's 2^18-byte ring, words and bytes |
| `TxEngine`, `TxWindow`, `TxDatapath` | transmit window: bursts, the shared pointers, the processes |
| `RxWindow`, `RxDatapath` | receive window |
| `SessionLookup`, `SessionAnswers`, `CuckooTable` | session IDs, CAM, reverse table, requests and answers, hash table |
| `StateTable`, `TcpStates` | lock protocol and the TCP state machine that runs on it |
| `RxVerdicts`, `RxDecision` | verdict streams and payloads on the receive side; the state machine beside the window |
| `MemoryWrite`, `MemoryRead` | data mover commands and realignment across the ring's end |
| `RxHeader`, `TxPacket`, `EthernetFraming` | header insertion and removal on both sides |
| `Checksums` | RFC 1071, RFC 791 and RFC 1624 arithmetic |
| `EventGate`, `AckDelay`, `RetransmitTimer`, `PortTable` | event flow, timers, ports |

## What the code does not keep

Each of these is a lemma about the code as it is: a concrete run or input that breaks the obvious
claim, or an exact condition for it.

- A TX burst sends what the window allows if and only if the 16-bit length loses nothing and the
  16-bit count of bytes in flight does not wrap within the window (`TxEngine.BurstIsExactIff`,
  `BurstRespectsWindowIff`; instances: `LongBurstSkipsBytes`, `WideWindowIsOverrun`), and the bytes sent
  are a prefix of the application's if and only if no burst skips (`TxWindow.TransmittedStreamIsPrefixIff`).
  Runs from the start do both: `TxWindow.RunSkips`, `RunOverruns`.
- A retransmission of more than one segment reads wrong bytes for all but the first
  (`TxEngine.RetransmissionReadsOwnBytesIff`).
- A write of 2^16 bytes or more, played to its end, leaves the engine's write pointer behind what was
  admitted (`TxWindow.WriteIsConfirmedIff`).
- An in-order segment that fills the free space exactly is dropped (`RxWindow.ExactFitIsDropped`; a run
  from the start: `RunDropsExactFit`), and
  without scaling the window field is the free space modulo 2^16 (`RxWindow.WindowFieldIsFloorIff`).
- A failed hash table insertion loses another key, unless the eviction path, which can be followed
  beforehand, comes back to the new one (`CuckooTable.InsertSucceedsIff`, `InsertKeepsOthersIff`; an
  instance: `FailedInsertLosesAnotherKey`, on tables a run fills, `RunFills`).
- An ACK outside the window leaves the session locked and its payload without a verdict
  (`TcpStates.LockLeftIff`, `StateTable.LeftLockStrandsRequest`, `RxVerdicts.MissingVerdictSlips`; a run
  from the start: `TcpStates.StrayAckStrandsClose`).
- An open moves its session along an edge of the state diagram if and only if it finds it closed or
  being opened (`TcpStates.ChangesFollowDiagramIff`). A run from the start overwrites an established
  session (`OpenOverwritesEstablished`); an open is given such a session when the peer's own SYN for
  the same tuple is looked up first (`SessionLookup.OpenIsGivenPeersSession`).
- CLOSING is also reached with our FIN acknowledged: without FIN_WAIT_2 nothing remembers a plain ACK that
  came before the peer's FIN (`TcpStates.ClosingIsAckedIff`; a run from the start:
  `AcknowledgedCloseIsClosing`).
- A look-up can be answered with an ID that has been released, exactly while a delete of its tuple
  waits (`SessionLookup.HitIsLiveIff`; a run from the start: `StaleIdIsFound`).
- A write or read that ends exactly at the ring's end issues an empty second command
  (`MemoryWrite.EmptyCommandIff`), which leaves the reader waiting if the data mover does not answer it
  (`MemoryRead.ReaderIsReadyIff`).
- A read across the ring's end with more than one word before it loses bytes, and one that ends exactly
  there loses bytes or the end of its packet, unless it is shorter than a word and the data mover
  answers the empty command (`MemoryRead.ReadIsExactIff`, `ReadYields`).
- A segment with more than 64 payload bytes leaves with the wrong bytes
  (`TxPacket.SegmentsAreIntactIff`), and an IP packet whose extra word is skipped has no last word
  (`TxPacket.IpPacketIff`).
- An IP header of 36 bytes loses bytes of every packet that has any behind it
  (`RxHeader.PseudoPacketCarriesIff`, `ThirtySixByteHeaderLosesBytes`).
- The ICMP update differs from equation 3 of RFC 1624 for one checksum (`Checksums.UpdateIsEquation3Iff`).
- A stop can be overtaken by the start that follows it, and the retransmit cursor leaves its table
  (`RetransmitTimer.StartAfterStopSurvivesIff`, `CursorLeavesTableIff`).
- A request for a free port that meets a held one gets no answer (`PortTable.FreeRequestIsAnsweredIff`),
  although the comment above the table assumes that free ports never run out.

## Model

| member | source | states |
|---|---|---|
| TxEngine.BurstIsSafe | hls/toe/tx_engine/tx_engine.cpp:130-273 | whatever the table answers, a TX event's segments run on without gap from `not_ackd`, each at most an MSS and read from its own sequence number modulo 2^18, never more than was waiting, with one write-back inside it; the loop ends |
| TxEngine.BurstTotal | hls/toe/tx_engine/tx_engine.cpp:130-273 | for every table answer: the total sent is what survives the 16-bit length, cut by the usable window unless the 16-bit count of bytes in flight wraps before the window's edge; and the pointer written back |
| TxEngine.BurstIsExactIff | hls/toe/tx_engine/tx_engine.cpp:69-273 | for every window: the burst covers exactly min(waiting, usable window) and writes back the matching pointer if and only if the 16-bit length hides nothing the window would have let through and the 16-bit count does not wrap within the window |
| TxEngine.PointerMatchesIff | hls/toe/tx_engine/tx_engine.cpp:130-273 | the pointer written back matches what was sent if and only if the burst does not skip: 2^16 bytes and an MSS or more waiting, nothing in flight, and all sent that the 16-bit length left; a skip passes over bytes never sent |
| TxEngine.BurstRespectsWindowIff | hls/toe/tx_engine/tx_engine.cpp:130-273 | bytes in flight afterwards stay within the window, unless they did not before and nothing was sent, if and only if the 16-bit count does not wrap within it |
| TxEngine.FinFollowsIff | hls/toe/tx_engine/tx_engine.cpp:175-199 | the FIN follows a burst at once if and only if it was asked for, the burst sends all that survives the 16-bit length, and nothing was in flight before or what was waiting is a whole number of full segments |
| TxEngine.LongBurstSkipsBytes | hls/toe/tx_engine/tx_engine.cpp:69-71 | a concrete answer with 66996 bytes waiting: one MSS is sent, the pointer moves past all of them |
| TxEngine.WideWindowIsOverrun | hls/toe/tx_engine/tx_engine.cpp:69-71 | a concrete answer with a window above 2^16 whose burst sends one byte more than is usable |
| TxEngine.RetransmissionCovers | hls/toe/tx_engine/tx_engine.cpp:274-455 | RT and its continuations repeat, without gap, min(in flight, 4 MSS) bytes from `ackd` on and write no pointer |
| TxEngine.FinIsRepeatedIff | hls/toe/tx_engine/tx_engine.cpp:330-455 | a FIN that was sent is repeated behind a retransmission if and only if all bytes in flight fit its four segments |
| TxEngine.RetransmissionReadsOwnBytesIff | hls/toe/tx_engine/tx_engine.cpp:371-455 | every repeated segment is read from its own place if and only if there is one, or two with the second at the ring's first byte |
| TxEngine.BurstRest | hls/toe/tx_engine/tx_engine.cpp:130-273 | at every step of the loop, what has been sent and the burst from the present registers make the same whole |
| TxEngine.TxEngTcpFsm.LoadEvent | hls/toe/tx_engine/tx_engine.cpp:85-127 | taking an event resets exactly the loop registers |
| TxEngine.TxEngTcpFsm.TransitionTx | hls/toe/tx_engine/tx_engine.cpp:130-273 | one TX step sends, writes back and changes registers as the specification step says |
| TxEngine.TxEngTcpFsm.TransitionRt | hls/toe/tx_engine/tx_engine.cpp:274-455 | the same for RT and RT_CONT |
| TxEngine.TxEngTcpFsm.TransmitEvent | hls/toe/tx_engine/tx_engine.cpp:130-273 | stepping until the machine leaves the TX state yields exactly the burst, and the state after it, that the lemmas above describe |
| TxWindow.SarAnswerIsExact | hls/toe/tx_sar_table/tx_sar_table.cpp:83-115 | with the pointers in order and within a buffer, the wrapped subtractions give the true lengths waiting, in flight and to be repeated, and the equality test is exact |
| TxWindow.RoomIsExact | hls/toe/tx_app_intf/tx_app_intf.cpp:294-296 | the admission test's 18-bit room is the true room in the ring less one byte |
| TxWindow.AckTestIff | hls/toe/rx_engine/rx_engine.cpp:681-686 | the wrapped 32-bit test accepts an acknowledgement number if and only if the position it stands for lies between the last acknowledgement and the next byte |
| TxWindow.AckTakenIff | hls/toe/rx_engine/rx_engine.cpp:640-695 | in every run an ACK is written to the table if and only if its number is that of a position between the last acknowledgement and the next byte, and then for that position |
| TxWindow.StepKeeps | hls/toe/tx_sar_table/tx_sar_table.cpp:43-153 | every step of the six processes keeps the order of all pointer copies, the residues, the streams between them and the bytes in memory |
| TxWindow.RunKeeps | hls/toe/tx_app_intf/tx_app_intf.cpp:288-508 | in every run, from every initial sequence number, `app ackd <= ackd <= not_ackd <= app_written <= app_written_ideal < app ackd + 2^18`, each 18/32-bit field is the residue of its position, and the bytes read from memory for every segment are the application's |
| TxWindow.UnacknowledgedBytesSurvive | hls/toe/tx_app_intf/tx_app_intf.cpp:288-356 | in every run each stored byte that is not yet acknowledged to the application's table is still in memory, unchanged |
| TxWindow.QuietCopiesAgree | hls/toe/tx_app_intf/tx_app_intf.cpp:397-508 | in every run, whenever the streams are empty all copies agree: everything admitted is visible to the engine, both tables know the same acknowledgement |
| TxWindow.AdmittedCanBeConfirmed | hls/toe/tx_app_intf/tx_app_intf.cpp:397-447 | from whatever a run has come to, steps of the table, the mover and the response handler alone make every admitted byte visible to the engine |
| TxWindow.AdmissionIsExact | hls/toe/tx_app_intf/tx_app_intf.cpp:288-356 | in every run a write is taken if and only if the session is established and it leaves one byte of the ring free as of the acknowledgement in the answer it was given; then one command, one event and one pointer update go out, all for its place; otherwise the write is told which of the two failed, and nothing else changes |
| TxWindow.WriteIsConfirmedIff | hls/toe/tx_app_intf/tx_app_intf.cpp:397-447 | played to its end, a write brings the engine's write pointer level with the admitted one if and only if it is shorter than 2^16 bytes |
| TxWindow.TransmittedStreamIsPrefixIff | hls/toe/tx_engine/tx_engine.cpp:130-273 | after every run, for every window, the payloads sent, end to end, are a prefix of what the application handed over, as long as `not_ackd` says, if and only if no burst of the run skipped; a skipped byte is never made up for |
| TxWindow.WindowIsPeers | hls/toe/tx_sar_table/tx_sar_table.cpp:98-112 | in every run the window in an answer for the TX engine is at most the window field of the ACK applied last, times 2^shift, and at most its congestion window, and one of the two; what may be sent is that less what is in flight |
| TxWindow.BurstStaysInOffer | hls/toe/tx_engine/tx_engine.cpp:130-273 | in every run a burst leaves in flight no more than was before, or than that window and congestion window allow, if and only if the 16-bit count does not wrap; the pointer handed over stands behind what it sent if and only if the burst does not skip; and it sends all that was written and not sent, cut by the usable window, if and only if neither 16-bit value loses anything |
| TxWindow.RunSkips | hls/toe/tx_engine/tx_engine.cpp:69-273 | a run from the start: two writes of 40000 bytes and one TX event, whose burst sends 14464 bytes and passes all 80000 |
| TxWindow.RunOverruns | hls/toe/tx_engine/tx_engine.cpp:69-273 | a run from the start: with a window of 66000 bytes and 64540 in flight, the next burst sends one byte more than fits |
| TxDatapath.TxDatapath.constructor | hls/toe/tx_sar_table/tx_sar_table.cpp:50-69 | the tables right after the SYN: the initial state of the runs |
| TxDatapath.TxDatapath.Answer | hls/toe/tx_sar_table/tx_sar_table.cpp:83-115 | the answer's lengths and windows, with each truncation |
| TxDatapath.TxDatapath.SarTable | hls/toe/tx_sar_table/tx_sar_table.cpp:43-164 | one call of the table serves engine, application or RX engine, in this order of priority, as the step function says |
| TxDatapath.TxDatapath.AppTable | hls/toe/tx_app_intf/tx_app_intf.cpp:454-508 | one call of the application's table |
| TxDatapath.TxDatapath.ReadRequest | hls/toe/tx_app_intf/tx_app_intf.cpp:271-287 | a write request asks both tables |
| TxDatapath.TxDatapath.Decide | hls/toe/tx_app_intf/tx_app_intf.cpp:288-330 | the outcome with the no-delay option off, as configured: no connection, no space, or admitted |
| TxDatapath.TxDatapath.ReadMeta | hls/toe/tx_app_intf/tx_app_intf.cpp:288-376 | an admitted write issues command, event and pointer update; a refused one only its answer |
| TxDatapath.TxDatapath.Mover | hls/toe/mock/mock_memory.hpp:82-104 | the oldest write command is stored and its status sent |
| TxDatapath.TxDatapath.WriteDone | hls/toe/tx_app_intf/tx_app_intf.cpp:397-447 | an event and its status move the pointer the engine sees |
| TxDatapath.TxDatapath.EngineLoad | hls/toe/tx_engine/tx_engine.cpp:85-127 | loading an event asks the table |
| TxDatapath.TxDatapath.EngineTransmit | hls/toe/tx_engine/tx_engine.cpp:130-273 | a whole burst: its segments with the bytes read for them, and the pointer written back |
| TxDatapath.TxDatapath.RxLoad | hls/toe/rx_engine/rx_engine.cpp:601-624 | loading an ACK segment asks the table |
| TxDatapath.TxDatapath.RxAck | hls/toe/rx_engine/rx_engine.cpp:640-695 | an acceptable acknowledgement is written back, another leaves the table alone |
| RxWindow.FreeSpaceIsExact | hls/toe/rx_engine/rx_engine.cpp:700-701 | the wrapped `(app_read - recvd) - 1` is the true free space less one byte, as of the read pointer it was given, stale or not |
| RxWindow.StepKeeps | hls/toe/rx_sar_table/rx_sar_table.cpp:52-84 | every step keeps the order of the pointer copies, the write path, and the bytes in memory |
| RxWindow.RunKeeps | hls/toe/rx_engine/rx_engine.cpp:697-730 | in every run no accepted payload overwrites an unread byte, and what the application has received is exactly the beginning of the accepted stream |
| RxWindow.DeliveredIsPrefixOfPeer | hls/toe/rx_engine/rx_engine.cpp:697-730 | for a peer whose segments carry its own bytes, with loss, repetition, reordering and delay, the application always holds a prefix of what the peer sent |
| RxWindow.QuietDeliversAll | hls/toe/rx_app_intf/rx_app_intf.cpp:95-139 | when the streams are empty and all notified bytes have been asked for, everything accepted has been delivered |
| RxWindow.AcceptedCanBeDelivered | hls/toe/rx_app_intf/rx_app_intf.cpp:95-139 | from whatever a run has come to, the modules' own steps and a reading application deliver everything accepted, without any further segment |
| RxWindow.AcceptedIff | hls/toe/rx_engine/rx_engine.cpp:697-730 | a segment is accepted if and only if it starts at the next byte and is strictly shorter than the true free space |
| RxWindow.ExactFitIsDropped | hls/toe/rx_engine/rx_engine.cpp:702-704 | an in-order segment that fills the free space exactly is dropped |
| RxWindow.RunDropsExactFit | hls/toe/rx_engine/rx_engine.cpp:700-704 | a run from the start: four segments are accepted, the fifth fits the free space exactly and is dropped |
| RxWindow.WindowFieldIsFloorIff | hls/toe/rx_sar_table/rx_sar_table.cpp:36-50 | the advertised window never exceeds the free space, and is that space rounded down to the scale if and only if it fits the 16-bit field |
| RxWindow.AdvertsAreTruthful | hls/toe/rx_sar_table/rx_sar_table.cpp:36-50 | in every run there is one advert for each look-up; each acknowledges the table's receive position of that moment, never past what was accepted, and its field stands for the free space - or, while that position lags behind the read pointer, for the bytes between them - rounded down to the scale if and only if it fits the field |
| RxWindow.WindowIsHonoured | hls/toe/rx_sar_table/rx_sar_table.cpp:36-84 | in every run, however it goes on after a look-up, the right edge told by the newest advert is honoured: an in-order segment that ends before it has room - every segment whose table answer is taken after the look-up |
| RxWindow.ReadYieldsNext | hls/toe/rx_app_intf/rx_app_intf.cpp:117-139 | reading from the pointer's slot yields the next bytes of the accepted stream |
| RxDatapath.RxDatapath.constructor | hls/toe/rx_sar_table/rx_sar_table.cpp:70-80 | the table right after the SYN |
| RxDatapath.RxDatapath.Table | hls/toe/rx_sar_table/rx_sar_table.cpp:36-84 | one call of the table, by its priorities |
| RxDatapath.RxDatapath.LookUp | hls/toe/rx_sar_table/rx_sar_table.cpp:36-50 | the window computed for the TX engine |
| RxDatapath.RxDatapath.LoadSegment | hls/toe/rx_engine/rx_engine.cpp:601-624 | loading a segment asks the table |
| RxDatapath.RxDatapath.InOrderAndRoom | hls/toe/rx_engine/rx_engine.cpp:698-704 | the order and space test on the wrapped registers |
| RxDatapath.RxDatapath.Transition | hls/toe/rx_engine/rx_engine.cpp:697-730 | an accepted payload updates the table, commands a write and notifies; any other gets a drop verdict |
| RxDatapath.RxDatapath.MoverWrite | hls/toe/mock/mock_memory.hpp:82-104 | the oldest payload is stored and its status sent |
| RxDatapath.RxDatapath.Announce | hls/toe/rx_engine/rx_engine.cpp:1129-1175 | a notification passes only after the status of its payload |
| RxDatapath.RxDatapath.WaitRequest | hls/toe/rx_app_intf/rx_app_intf.cpp:96-116 | a read request asks the table; one for no bytes is ignored |
| RxDatapath.RxDatapath.WaitSarRsp | hls/toe/rx_app_intf/rx_app_intf.cpp:117-139 | the read pointer moves and the bytes go to the application |
| SessionLookup.RunKeeps | hls/toe/session_lookup_controller/session_lookup_controller.cpp:12-336 | in every run of the five processes and the CAM the ledger, tuples, in-flight insert, CAM queues and counter fit together |
| SessionLookup.EveryIdIsInOnePlace | hls/toe/session_lookup_controller/session_lookup_controller.cpp:12-28 | in every reachable state every ID is in exactly one place: unminted, available, released, in flight, on its way to or valid in the reverse table, or waiting for deletion |
| SessionLookup.CamAgrees | hls/toe/session_lookup_controller/session_lookup_controller.cpp:79-224 | after its queued updates the CAM holds a tuple for an ID if and only if a valid reverse entry, an insert under way or a pending delete ties them, and it is injective |
| SessionLookup.UpdatesSucceed | hls/toe/mock/mock_cam.hpp:28-73 | the CAM never meets an insert of a key it has, nor a delete of one it lacks |
| SessionLookup.CountIsExact | hls/toe/session_lookup_controller/session_lookup_controller.cpp:188-204 | the 16-bit session counter is inserts sent minus deletes sent, stays within 0..128, and counts the bound IDs once no insert waits |
| SessionLookup.SecondReleaseIsIgnored | hls/toe/session_lookup_controller/session_lookup_controller.cpp:317-336 | a second release of an ID only uses up the request |
| SessionLookup.NewSessionAnswerIsRight | hls/toe/session_lookup_controller/session_lookup_controller.cpp:148-170 | the answer that opens a session names the ID the CAM ties to the requested tuple, and the requester's role |
| SessionLookup.HitIsLiveIff | hls/toe/session_lookup_controller/session_lookup_controller.cpp:123-147 | in every run a look-up hits if and only if the CAM holds the tuple, and the ID found is that of a live session of the tuple if and only if no delete of it waits to be sent or at the CAM |
| SessionLookup.StaleIdIsFound | hls/toe/session_lookup_controller/session_lookup_controller.cpp:80-147 | a run from the start in which an open's look-up finds an ID that has been released |
| SessionLookup.KnownTupleIsAnswered | hls/toe/session_lookup_controller/session_lookup_controller.cpp:80-147 | an open whose tuple the CAM knows is answered with the ID it has, whoever made the session |
| SessionLookup.KnownPeerIsAnswered | hls/toe/session_lookup_controller/session_lookup_controller.cpp:100-147 | a segment of the peer for (dst, src) is answered with the ID the CAM holds for (src, dst) |
| SessionLookup.OpenIsGivenPeersSession | hls/toe/tx_app_intf/tx_app_intf.cpp:80-103 | a run from the start in which an open is answered with the session its peer's SYN has made for the same tuple |
| SessionAnswers.AnswersAreRight | hls/toe/session_lookup_controller/session_lookup_controller.cpp:80-170 | in every run each side's requests are taken up in order and each answer goes to its requester, in order, with its role; it says "hit" if and only if the CAM held the tuple, seen from our side, at the look-up, or a session was made for this request - exactly for a miss that may create one and finds an ID - and names that ID |
| SessionAnswers.RequestsCanBeAnswered | hls/toe/session_lookup_controller/session_lookup_controller.cpp:80-224 | from whatever a run has come to, steps of the handler, the update processes and the CAM alone answer every request made |
| SessionAnswers.MadeSessionsAreFiled | hls/toe/session_lookup_controller/session_lookup_controller.cpp:148-170 | in every run the sessions filed in the reverse table are, in order, those made for the requests answered, with the request's tuple and role; an entry is the newest one taken in under its ID |
| SessionAnswers.FreedPortsAreLocal | hls/toe/session_lookup_controller/session_lookup_controller.cpp:317-336 | in every run the ports given back are, in order, the byte-swapped local ports of the sessions that left the reverse table |
| SessionLookup.SessionLookupController.constructor | hls/toe/session_lookup_controller/session_lookup_controller.cpp:12-28 | empty tables and streams, nothing minted |
| SessionLookup.SessionLookupController.GetNewAvailableSessionId | hls/toe/session_lookup_controller/session_lookup_controller.cpp:12-28 | released IDs first, then new ones up to the bound |
| SessionLookup.SessionLookupController.HandleRequest | hls/toe/session_lookup_controller/session_lookup_controller.cpp:80-122 | application requests before the RX engine's, the tuple seen from this side |
| SessionLookup.SessionLookupController.HandleResponse | hls/toe/session_lookup_controller/session_lookup_controller.cpp:123-147 | a miss that may create takes an ID if there is one; every other response is answered |
| SessionLookup.SessionLookupController.HandleInserted | hls/toe/session_lookup_controller/session_lookup_controller.cpp:148-170 | the inserted ID goes to the reverse table and to the requester |
| SessionLookup.SessionLookupController.CamUpdateReqSender | hls/toe/session_lookup_controller/session_lookup_controller.cpp:177-205 | inserts before deletes; a delete releases its ID |
| SessionLookup.SessionLookupController.CamUpdateRspHandler | hls/toe/session_lookup_controller/session_lookup_controller.cpp:211-224 | only insert responses pass |
| SessionLookup.SessionLookupController.MockCamLookup | hls/toe/mock/mock_cam.hpp:28-41 | a look-up answers what the map holds |
| SessionLookup.SessionLookupController.MockCamUpdate | hls/toe/mock/mock_cam.hpp:43-72 | an update changes the map and reports success |
| SessionLookup.SessionLookupController.SlookupReverseTableInterface | hls/toe/session_lookup_controller/session_lookup_controller.cpp:274-336 | inserts before releases; a release of a valid entry frees its port and asks for its deletion |
| CuckooTable.InsertConserves | hls/hash_table/hash_table.cpp:104-155 | for any property of entries: after an insertion, however the chain wanders, the new entry has come in and at most the one left over has gone |
| CuckooTable.InsertKeepsPlaces | hls/hash_table/hash_table.cpp:104-155 | every valid entry stays at its own hash |
| CuckooTable.InsertIsMap | hls/hash_table/hash_table.cpp:88-155 | a successful insertion of an absent key adds exactly its binding; a failed one also drops exactly the binding left over; the number of entries grows by one or stays |
| CuckooTable.RemoveConserves | hls/hash_table/hash_table.cpp:157-184 | removing a key changes no count that does not concern it |
| CuckooTable.RemoveIsMap | hls/hash_table/hash_table.cpp:157-184 | a removal deletes the key's binding and reports success if and only if there was one |
| CuckooTable.LookupIsMap | hls/hash_table/hash_table.cpp:57-86 | a look-up answers what the map says, hit or miss |
| CuckooTable.RunIsMap | hls/hash_table/hash_table.cpp:57-184 | over any run that inserts only absent keys the table refines a map, for any hash, two or more tables and any trial bound |
| CuckooTable.ChainIsPath | hls/hash_table/hash_table.cpp:110-155 | an insertion goes exactly the way its eviction path through the table as it stands says: evictions never free a slot |
| CuckooTable.InsertSucceedsIff | hls/hash_table/hash_table.cpp:88-155 | it succeeds if and only if an entry on that path has a free candidate within the trials - the new key's own is enough, and with one trial the only way; otherwise the path names the entry left over |
| CuckooTable.InsertKeepsOthersIff | hls/hash_table/hash_table.cpp:88-155 | inserting an absent key keeps every other binding if and only if the path finds room or comes back to the new entry; the new key is found afterwards if and only if it finds room or leaves over another |
| CuckooTable.StaysUniqueIff | hls/hash_table/hash_table.cpp:88-155 | unique keys stay unique if and only if the key was absent, or its path comes back to it when the trials run out |
| CuckooTable.FailedInsertLosesAnotherKey | hls/hash_table/hash_table.cpp:128-155 | an instance: the new key is in, an old one is gone |
| CuckooTable.RunFills | hls/hash_table/hash_table.cpp:88-155 | a run from the empty tables to those of that instance |
| CuckooTable.CuckooHashTable.constructor | hls/hash_table/hash_table.cpp:57-68 | all entries invalid |
| CuckooTable.CuckooHashTable.ReadCandidates | hls/hash_table/hash_table.cpp:112-121 | the hashes of a key and the entries there |
| CuckooTable.CuckooHashTable.WriteBack | hls/hash_table/hash_table.cpp:138-142 | writing the candidates back changes only their slots |
| CuckooTable.CuckooHashTable.LookUp | hls/hash_table/hash_table.cpp:57-86 | equals the look-up of the specification and changes nothing |
| CuckooTable.CuckooHashTable.LastFree | hls/hash_table/hash_table.cpp:113-121 | the last free candidate |
| CuckooTable.CuckooHashTable.Exchange | hls/hash_table/hash_table.cpp:123-137 | the new entry takes the free slot or the victim's |
| CuckooTable.CuckooHashTable.Trial | hls/hash_table/hash_table.cpp:111-147 | one trial fills a free slot or swaps with the victim, and changes nothing else |
| CuckooTable.CuckooHashTable.Insert | hls/hash_table/hash_table.cpp:88-155 | the loop over the array computes the insertion chain, its result, the victim bit and the failure counter |
| CuckooTable.CuckooHashTable.Remove | hls/hash_table/hash_table.cpp:157-184 | the array afterwards is the specification's, and success is told exactly |
| StateTable.RunKeeps | hls/toe/state_table/state_table.cpp:59-180 | in every run the two locks never name the same session, a locked session has the value its holder read, and each client's requests are served once and in order |
| StateTable.HeldSessionIsStable | hls/toe/state_table/state_table.cpp:59-180 | over any number of steps from a client's read to its next served request, nobody else - the other client, a timer, a look-up - changes the session or ends the lock |
| StateTable.NoDeadlock | hls/toe/state_table/state_table.cpp:59-180 | in every run in which each read is followed by a write to the same session, a blocked client holds no lock and its blocker is not blocked |
| StateTable.OrderlyKeeps | hls/toe/state_table/state_table.cpp:59-180 | that discipline is kept by every step |
| StateTable.PatientKeeps | hls/toe/state_table/state_table.cpp:59-180 | under it a client whose request is put aside never holds a lock |
| StateTable.RunIsPatient | hls/toe/state_table/state_table.cpp:59-180 | so in every disciplined run, from the start |
| StateTable.SomethingIsServed | hls/toe/state_table/state_table.cpp:59-180 | within four steps a waiting request is served, unless a client still owes the write for its read |
| StateTable.EverythingIsServed | hls/toe/state_table/state_table.cpp:59-180 | nobody starves: four steps for each waiting request serve them all, unless it comes to a client that owes its write |
| StateTable.UnlockedStepServes | hls/toe/state_table/state_table.cpp:59-180 | while nothing is locked every step serves a waiting request |
| StateTable.StepEffect | hls/toe/state_table/state_table.cpp:59-180 | every step serves the oldest request of one client, or one expiry, or one look-up, or changes nothing anyone sees; each case with its whole effect on table, answers and releases |
| StateTable.ReleasesAndLookUps | hls/toe/state_table/state_table.cpp:59-180 | in every run the releases are, in order, the sessions of the served writes of CLOSED by the RX engine and of the served expiries; the k-th look-up answer is the state of the k-th session looked up at the moment it was served, and answered and waiting look-ups are all that were asked |
| StateTable.LeftLockStrandsRequest | hls/toe/state_table/state_table.cpp:120-150 | after a read without a write, the other client's request is never served unless a new request comes from the holder |
| StateTable.StateTableModule.constructor | hls/toe/state_table/state_table.cpp:23-58 | all sessions closed, nothing locked |
| StateTable.StateTableModule.Run | hls/toe/state_table/state_table.cpp:59-180 | one call over the array, branch by branch, is the step function |
| StateTable.StateTableModule.GrantTx | hls/toe/state_table/state_table.cpp:66-83 | serving an application request writes and unlocks, or answers and locks |
| StateTable.StateTableModule.GrantRx | hls/toe/state_table/state_table.cpp:98-121 | the same for the RX engine; storing CLOSED releases the session |
| TcpStates.ReceiveEdgeIff | hls/toe/rx_engine/rx_engine.cpp:626-1103 | the states the RX engine can write, from every state but the unused FIN_WAIT_2, are exactly the edges of `ReceiveEdge`: this project's list of the diagram's edges, with the merged and unused states of toe_conn.hpp:61-67 |
| TcpStates.EdgeIff | hls/toe/rx_engine/rx_engine.cpp:626-1103 | the RX engine takes a session from one state to another if and only if the segment is the one the diagram labels that edge with: which control bits, and which comparisons passed |
| TcpStates.KeptIff | hls/toe/rx_engine/rx_engine.cpp:697-1041 | a payload is kept if and only if it is in order and comes with a plain ACK in the window, with room, in a state that takes it, or with a FIN that an open connection takes |
| TcpStates.LockLeftIff | hls/toe/rx_engine/rx_engine.cpp:681-800 | the lock is left behind for exactly one kind of segment: a plain ACK outside the window in a state that takes acknowledgements |
| TcpStates.EveryChangeIsLawful | hls/toe/state_table/state_table.cpp:59-180 | composed with the lock protocol, in every run each write served for the RX engine is its decision on the value the session has at that moment, each for the connection handler its close of that value or an open's SYN_SENT, and each other change the oldest expiry's; with what it does to requests and releases |
| TcpStates.ChangesFollowDiagramIff | hls/toe/tx_app_intf/tx_app_intf.cpp:124-219 | in every run a step takes each session along an edge of the diagram if and only if it does not serve an open of a session that is neither closed nor being opened; a change by the RX engine is one its segment causes, a close takes ESTABLISHED to FIN_WAIT_1 and nothing else; FIN_WAIT_2 is never stored |
| TcpStates.StatesTell | hls/toe/rx_engine/rx_engine.cpp:718-1041 | in every run each state tells the truth about what was served before: ESTABLISHED and what follows it only after our SYN was acknowledged; CLOSING and LAST_ACK only after the peer's FIN was taken in order, with nothing since that acknowledged all we sent; TIME_WAIT after both |
| TcpStates.ClosingIsAckedIff | hls/toe/rx_engine/rx_engine.cpp:1015-1030 | a session in CLOSING has had everything acknowledged if and only if a plain ACK came before the peer's FIN, or a later FIN carried the acknowledgement |
| TcpStates.AcknowledgedCloseIsClosing | hls/toe/rx_engine/rx_engine.cpp:718-1030 | a run from the start that reaches CLOSING although our FIN was acknowledged |
| TcpStates.ClientsNeverDeadlock | hls/toe/tx_app_intf/tx_app_intf.cpp:124-219 | in every run RX engine and close handler never wait for each other's locks at once |
| TcpStates.OpenOverwritesEstablished | hls/toe/tx_app_intf/tx_app_intf.cpp:124-146 | a run from the start: a peer's handshake establishes a session, then an open of it stores SYN_SENT, an edge the diagram does not have |
| TcpStates.StrayAckStrandsClose | hls/toe/rx_engine/rx_engine.cpp:681-800 | a run from the start: an ACK outside the window leaves an established session locked, and the application's close is put aside with nothing left that could unlock it |
| TcpStates.Transition | hls/toe/rx_engine/rx_engine.cpp:626-1103 | the branches of TRANSITION yield the state to write back, if any, and the payload verdict, if any |
| TcpStates.TxAppConnectionHandler.OpenConn | hls/toe/tx_app_intf/tx_app_intf.cpp:124-146 | an open writes SYN_SENT and raises a SYN |
| TcpStates.TxAppConnectionHandler.CloseConn | hls/toe/tx_app_intf/tx_app_intf.cpp:167-177 | a close reads the state first |
| TcpStates.TxAppConnectionHandler.CloseRsp | hls/toe/tx_app_intf/tx_app_intf.cpp:201-219 | it then writes FIN_WAIT_1 and raises a FIN from ESTABLISHED or FIN_WAIT_1, and writes any other state back unchanged |
| RxVerdicts.RunKeeps | hls/toe/rx_engine/rx_engine.cpp:313-526 | in every run each payload has exactly the verdicts that are still to come for it, in order, across the three verdict streams |
| RxVerdicts.PayloadsNeverSlip | hls/toe/rx_engine/rx_engine.cpp:458-526 | if every payload that reaches the state machine gets a verdict, the words leaving the dropper are, in order, the payloads that passed checksum, port, session and state machine, and the beginning of the one under way |
| RxVerdicts.AllPayloadsComeOut | hls/toe/rx_engine/rx_engine.cpp:458-526 | once all has gone through, everything kept has come out |
| RxVerdicts.OneCommandPerPayload | hls/toe/rx_engine/rx_engine.cpp:705-716 | the memory write commands are the lengths in bytes of the kept payloads, in order, and all of them once every header has gone through |
| RxVerdicts.SomethingMoves | hls/toe/rx_engine/rx_engine.cpp:313-526 | in every run, while a header or a payload word waits, one of the four modules can step |
| RxVerdicts.VerdictIff | hls/toe/rx_engine/rx_engine.cpp:681-1041 | the state machine gives a payload a verdict if and only if its segment is a FIN with ACK, or a plain ACK that is in the window or meets a state that takes none |
| RxVerdicts.SegmentsNeverSlip | hls/toe/rx_engine/rx_engine.cpp:681-1041 | the two composed: with verdicts decided from the states and segments met, nothing slips if every payload that reaches the state machine is that of such a segment |
| RxVerdicts.MissingVerdictSlips | hls/toe/rx_engine/rx_engine.cpp:681-786 | wherever a run has settled, any payload without a verdict takes that of the next good one: on "keep" it goes to memory in its place and under its write command |
| RxDecision.VerdictIsWindows | hls/toe/rx_engine/rx_engine.cpp:697-730 | for a segment with the comparisons the receive window makes, the state machine's verdict is to keep the payload if and only if the window accepts it, to drop if and only if the window has it dropped |
| RxDecision.StreamIsKeptPayloads | hls/toe/rx_engine/rx_engine.cpp:697-730 | in every run the accepted stream is the payloads the state machine keeps, end to end, and the dropper is given its verdicts in order |
| RxDecision.DropperForwardsAcceptedStream | hls/toe/rx_engine/rx_engine.cpp:458-730 | the dropper sends on exactly the bytes of the accepted stream, a beginning of them at any time and all once the payloads are through |
| RxVerdicts.RxVerdictPath.constructor | hls/toe/rx_engine/rx_engine.cpp:313-333 | empty streams, the dropper waiting |
| RxVerdicts.RxVerdictPath.Deliver | hls/toe/rx_engine/rx_engine.cpp:132-214 | the parser's header goes to the checks, its payload to the dropper |
| RxVerdicts.RxVerdictPath.RxEngVerifyChecksumAndPort | hls/toe/rx_engine/rx_engine.cpp:313-358 | one call: drop verdict for a payload with a bad checksum, header passed on otherwise |
| RxVerdicts.RxVerdictPath.RxEngTcpMetaHandler | hls/toe/rx_engine/rx_engine.cpp:370-447 | one call: closed port or missing session drops, a hit passes on |
| RxVerdicts.RxVerdictPath.RxEngTcpFsm | hls/toe/rx_engine/rx_engine.cpp:697-730 | the verdict and the write command for one header |
| RxVerdicts.RxVerdictPath.RxEngTcpPayloadDropper | hls/toe/rx_engine/rx_engine.cpp:458-526 | one call: reads the next verdict, or forwards or drops one word |
| MemoryWrite.WholeWrite | hls/toe/memory_access/memory_access.hpp:291-341 | a write below the ring's end: one command, beats unchanged |
| MemoryWrite.SplitWrite | hls/toe/memory_access/memory_access.hpp:291-409 | a write across the end: two commands, and each gets a well-formed packet of exactly its bytes |
| MemoryWrite.ExactFitWrite | hls/toe/memory_access/memory_access.hpp:299-376 | a write that ends at the end: a second command for no bytes and a beat that keeps nothing |
| MemoryWrite.EmptyCommandIff | hls/toe/memory_access/memory_access.hpp:299-317 | the mover gets an empty command if and only if the write ends exactly there |
| MemoryWrite.WriteGetsPackets | hls/toe/memory_access/memory_access.hpp:291-409 | wherever a write ends, its commands and their packets: one each of the right length, and one beat that keeps nothing for an empty command |
| MemoryWrite.WriteIsRingStore | hls/toe/memory_access/memory_access.hpp:242-409 | performed by the data mover, every write, wherever it ends, stores byte i at session offset (addr + i) mod 2^18 and nothing else in the ring |
| MemoryWrite.WriteStaysInSession | hls/toe/memory_access/memory_access.hpp:411-419 | and nothing outside the session's buffer, wherever it ends |
| MemoryWrite.WriteDataToMem.WaitForCmd | hls/toe/memory_access/memory_access.hpp:291-328 | the first command, the access flag and the counters |
| MemoryWrite.WriteDataToMem.Forward | hls/toe/memory_access/memory_access.hpp:330-398 | one beat in each forwarding state |
| MemoryWrite.WriteDataToMem.ForwardExtra | hls/toe/memory_access/memory_access.hpp:399-409 | what is left of the last beat |
| MemoryWrite.WriteDataToMem.Transfer | hls/toe/memory_access/memory_access.hpp:291-409 | called for a whole payload it writes exactly the specification's commands and beats |
| MemoryRead.SplitRead | hls/toe/memory_access/memory_access.hpp:138-220 | two blocks become one well-formed packet: the last beat of the first block and the whole second block |
| MemoryRead.EndYields | hls/toe/memory_access/memory_access.hpp:125-185 | a read that ends at the ring's end yields the last beat of its block: as a packet if that beat is not full and the empty command is answered, otherwise without a last beat that keeps anything |
| MemoryRead.ReadYields | hls/toe/memory_access/memory_access.hpp:31-220 | for every content of memory and wherever the read ends: what it delivers of the ring's bytes it names, and whether as a packet |
| MemoryRead.ReadIsExactIff | hls/toe/memory_access/memory_access.hpp:138-161 | every read of at least one byte delivers the ring's bytes as one packet if and only if it stays below the ring's end, or crosses it with at most 64 bytes before it, or ends there with fewer than 64 bytes and the data mover answers the empty command |
| MemoryRead.WriteThenRead | hls/toe/memory_access/memory_access.hpp:14-409 | a payload written and read back, wherever it ends, comes back unchanged under exactly that condition |
| MemoryRead.ReaderIsReadyIff | hls/toe/memory_access/memory_access.hpp:41-64 | after a read the reader is ready for the next one if and only if it did not end exactly at the ring's end, or the data mover answers the empty command with a beat that keeps nothing |
| MemoryRead.ReadDataSendCmd.TakeCommand | hls/toe/memory_access/memory_access.hpp:38-56 | the first command and the access flag |
| MemoryRead.ReadDataSendCmd.SendSecond | hls/toe/memory_access/memory_access.hpp:57-64 | the second command, from the ring's start |
| MemoryRead.ReadDataSendCmd.Send | hls/toe/memory_access/memory_access.hpp:38-64 | both together name exactly the read's commands |
| MemoryRead.ReadDataFromMem.Start | hls/toe/memory_access/memory_access.hpp:110-124 | the two offsets and the first state |
| MemoryRead.ReadDataFromMem.Take | hls/toe/memory_access/memory_access.hpp:125-208 | one beat in each state |
| MemoryRead.ReadDataFromMem.Transfer | hls/toe/memory_access/memory_access.hpp:108-220 | called for a whole read it passes on exactly what the lemmas describe |
| RxHeader.PseudoPacketCarriesIff | hls/toe/rx_engine/rx_engine.cpp:14-105 | a packet with a valid IP header leaves as pseudo header and exactly the bytes behind the IP header if and only if that header is not 36 bytes long, or nothing is behind it |
| RxHeader.ParserSlices | hls/toe/rx_engine/rx_engine.cpp:110-214 | for data offsets 5 to 12 the parser reports the number of bytes behind the TCP header and passes on exactly those |
| RxHeader.HeaderPathSlices | hls/toe/rx_engine/rx_engine.cpp:14-214 | the two composed: payload and its length are those behind the headers of the packet, and every field read - addresses, ports, numbers, data offset, flags, window - is the one that stands there |
| RxHeader.PseudoPacketIs | hls/toe/rx_engine/rx_engine.cpp:14-105 | between the two a packet is the addresses, zero, protocol 6, the true TCP length, and the TCP packet |
| RxHeader.PseudoFromFirstWord | hls/toe/rx_engine/rx_engine.cpp:36-61 | all that the pseudo header needs stands in the first word |
| RxHeader.ThirtySixByteHeaderLosesBytes | hls/toe/toe_utils.hpp:43-48 | no packet with an IP header of 36 bytes and anything behind it does, for its keep bits are moved by 12 lanes too many |
| RxHeader.RxEngTcpPseudoHeaderInsert.TakeHeader | hls/toe/rx_engine/rx_engine.cpp:36-63 | the first word's registers, or the whole packet if it is short |
| RxHeader.RxEngTcpPseudoHeaderInsert.TakeWord | hls/toe/rx_engine/rx_engine.cpp:64-89 | one further word |
| RxHeader.RxEngTcpPseudoHeaderInsert.TakePacket | hls/toe/rx_engine/rx_engine.cpp:14-105 | called for a whole packet it writes the pseudo packet |
| RxHeader.RxEngParseTcpHeader.TakeHeader | hls/toe/rx_engine/rx_engine.cpp:132-182 | the meta data and the offset |
| RxHeader.RxEngParseTcpHeader.TakeWord | hls/toe/rx_engine/rx_engine.cpp:183-205 | one further word |
| RxHeader.RxEngParseTcpHeader.TakePacket | hls/toe/rx_engine/rx_engine.cpp:110-214 | called for a whole pseudo packet it writes its meta data and payload words |
| TxPacket.MergeCarries | hls/toe/tx_engine/tx_engine.cpp:876-908 | the assembled pseudo packet is always well-formed and of the right length, with the first half of each word standing where its second half belongs |
| TxPacket.IpPacketIff | hls/toe/tx_engine/tx_engine.cpp:1063-1124 | the IP packet carries IP header and TCP packet with its checksum if and only if the TCP packet fits one word or its last word has at most 44 bytes; otherwise no word is marked as last |
| TxPacket.EmptySegmentIsIntact | hls/toe/tx_engine/tx_engine.cpp:860-875 | a segment without payload leaves as its two headers |
| TxPacket.SegmentsAreIntactIff | hls/toe/tx_engine/tx_engine.cpp:841-1124 | assembly, removal of the pseudo header and IP framing composed: all payloads of n bytes leave unchanged if and only if n is at most 64 |
| TxPacket.LongSegmentIsChanged | hls/toe/tx_engine/tx_engine.cpp:880-898 | any payload over 64 bytes whose first word differs in its halves leaves changed |
| TxPacket.SentSegmentVerifies | hls/toe/tx_engine/tx_engine.cpp:1069-1077 | with the checksum computed over the assembled packet put into the header, what is sent verifies at the receiver |
| TxPacket.TxEngConstructPseudoPacket.TakePayload | hls/toe/tx_engine/tx_engine.cpp:876-898 | one payload word behind the low half of the one before |
| TxPacket.TxEngConstructPseudoPacket.TakeSegment | hls/toe/tx_engine/tx_engine.cpp:841-908 | called for a whole segment it writes the assembled packet |
| TxPacket.TxEngRemovePseudoHeader.TakeWord | hls/toe/tx_engine/tx_engine.cpp:928-961 | one word of a pseudo packet |
| TxPacket.TxEngRemovePseudoHeader.TakePacket | hls/toe/tx_engine/tx_engine.cpp:915-972 | called for a whole packet it takes the pseudo header off |
| TxPacket.TxEngConstructIpv4Packet.TakeFirst | hls/toe/tx_engine/tx_engine.cpp:1063-1090 | the first word: IP header, TCP header, checksum |
| TxPacket.TxEngConstructIpv4Packet.TakeRest | hls/toe/tx_engine/tx_engine.cpp:1091-1114 | one further word, after the last of which the next packet begins whatever is left |
| TxPacket.TxEngConstructIpv4Packet.TakePacket | hls/toe/tx_engine/tx_engine.cpp:1044-1124 | called for a whole TCP packet it writes the IP packet |
| Beats.ShiftDownCarries | hls/utils/axi_utils.cpp:79-342 | joining each word's tail with the next word's head removes exactly the bytes below the offset, for every offset and length |
| Beats.ShiftUpCarries | hls/ethernet_header_inserter/ethernet_header_inserter.cpp:113-187 | moving each word up behind a head puts exactly the head's bytes in front |
| Beats.RemoveHeadCarries | hls/packet_handler/packet_handler.cpp:19-94 | taking k bytes off leaves exactly the rest, also for a single word |
| Beats.OneContent | hls/utils/axi_utils.cpp:44-72 | a well-formed list of beats has one length and one content |
| EthernetFraming.InsertCarries | hls/ethernet_header_inserter/ethernet_header_inserter.cpp:113-187 | inserting puts exactly the 14 header bytes in front of every packet |
| EthernetFraming.StripCarries | hls/packet_handler/packet_handler.cpp:19-94 | stripping removes exactly the first 14 bytes of every longer frame |
| EthernetFraming.InsertThenStrip | hls/packet_handler/packet_handler.cpp:19-94 | both together are the identity on packets of every non-zero length, bytes, keep masks and `last` |
| EthernetFraming.RoundTripKeepsWords | hls/ethernet_header_inserter/ethernet_header_inserter.cpp:75-187 | and give back the very words in every lane that counts |
| EthernetFraming.BytesDetermineWords | hls/utils/axi_utils.cpp:44-72 | well-formed packets with the same bytes agree word by word |
| EthernetFraming.EthernetHandleOutput.Lookup | hls/ethernet_header_inserter/ethernet_header_inserter.cpp:76-92 | a hit prepares the header, a miss drops |
| EthernetFraming.EthernetHandleOutput.WriteWord | hls/ethernet_header_inserter/ethernet_header_inserter.cpp:113-172 | one word behind what the last one left |
| EthernetFraming.EthernetHandleOutput.SendPacket | hls/ethernet_header_inserter/ethernet_header_inserter.cpp:75-187 | a packet leaves framed on a hit and not at all on a miss |
| EthernetFraming.EthernetRemover.TakeWord | hls/packet_handler/packet_handler.cpp:19-83 | one word of a frame, ARP frames unchanged |
| EthernetFraming.EthernetRemover.TakeFrame | hls/packet_handler/packet_handler.cpp:9-94 | a frame leaves stripped, an ARP frame as it was |
| Checksums.LaneChecksumIsRfc1071 | hls/utils/axi_utils.hpp:87-117 | for a packet of any length the 32 17-bit lanes and the reduction tree give exactly the checksum of section 1 of RFC 1071 |
| Checksums.LanesFold | hls/utils/axi_utils.hpp:87-117 | adding word by word, each carry put back at once, folds like the plain sum |
| Checksums.InsertedChecksumVerifies | hls/toe/rx_engine/rx_engine.cpp:334-346 | put into its zeroed even-aligned field, the computed checksum makes the receive side's result zero |
| Checksums.ZeroIffVerifies | hls/toe/rx_engine/rx_engine.cpp:334-346 | the receive side's zero test accepts exactly the packets that verify |
| Checksums.InsertedHeaderVerifies | hls/ethernet_header_inserter/ethernet_header_inserter.cpp:190-260 | the 30-word adder tree loses no carry: whatever the field held, the header verifies after the insertion, section 3.1 of RFC 791, and nothing else in the word changes |
| Checksums.ReplyVerifies | hls/icmp_server/icmp_server.cpp:120-159 | every verifying echo request becomes a verifying reply with the same identifier, number and data |
| Checksums.UpdateIsEquation3Iff | hls/icmp_server/icmp_server.cpp:120-159 | the update agrees with equation 3 of section 3 of RFC 1624 for every checksum but 0xF7FF |
| Checksums.ComputeSubChecksum.TakeBeat | hls/utils/axi_utils.hpp:87-117 | one beat goes into the lanes; after the last they go out and start at zero |
| Checksums.AddHalves | hls/utils/axi_utils.cpp:3-40 | one level of the reduction in place |
| Checksums.CheckChecksum | hls/utils/axi_utils.cpp:3-40 | the loops over the array compute the reduction |
| Checksums.AddPairs | hls/ethernet_header_inserter/ethernet_header_inserter.cpp:228-250 | one level of the header's adder tree |
| Checksums.ComputeAndInsertIpv4Checksum | hls/ethernet_header_inserter/ethernet_header_inserter.cpp:190-260 | the header with its checksum in place |
| Checksums.ComputeChechkSum20B | hls/icmp_server/icmp_server.cpp:3-72 | for a 20-byte header the ICMP server's tree gives the checksum of RFC 1071 |
| EventGate.RunKeeps | hls/toe/event_engine/event_engine.cpp:29-66 | in every run, with the top level's stream depths, the wrapped counters account for every event in the three streams |
| EventGate.GateIsExact | hls/toe/event_engine/event_engine.cpp:38-39 | in every run the gate is open if and only if nothing waits for the ACK delay and its forwarded events are all accounted for, despite the 8-bit wrap |
| EventGate.AdmissionFindsStreamsDrained | hls/toe/event_engine/event_engine.cpp:38-52 | in every run a timer or application event is admitted only when the stream to the ACK delay is empty and at most four events wait for the TX engine |
| EventGate.PassesIff | hls/toe/event_engine/event_engine.cpp:29-52 | in every run an event of the RX engine passes whenever there is one; without one, and if and only if the streams behind the gate are accounted for, the timers' oldest event, or else the application's |
| EventGate.EventsAreConserved | hls/toe/event_engine/event_engine.cpp:29-66 | in every run the events of each source pass in the order they came, and those passed, taken and sent arrive once and in order at the next module |
| EventGate.NeverStuck | hls/toe/toe.cpp:166-183 | the three modules never block each other on full streams: in every run, while an event waits, one of them moves on |
| EventGate.EventEngine.Arbitrate | hls/toe/event_engine/event_engine.cpp:29-52 | RX engine first, then, through the gate, timer before application |
| EventGate.EventEngine.Step | hls/toe/event_engine/event_engine.cpp:29-66 | one call, with its four wrapping counters |
| AckDelay.AbsorbedIsOwed | hls/toe/ack_delay/ack_delay.cpp:19-48 | in every run a session's count-down runs if and only if an ACK of it was absorbed and nothing of it forwarded since |
| AckDelay.EventsAreTakenOnce | hls/toe/ack_delay/ack_delay.cpp:19-48 | in every run each event that arrived is absorbed or forwarded once, in order, or still waits |
| AckDelay.EachStepTakes | hls/toe/ack_delay/ack_delay.cpp:19-48 | an event is absorbed if and only if it is a plain ACK of a session that is owed none, and a count-down sends only an ACK that is owed |
| AckDelay.AbsorbedAckIsSent | hls/toe/ack_delay/ack_delay.cpp:19-48 | within 128 times the count-down of idle steps an event of the session is forwarded, whatever else arrives meanwhile |
| AckDelay.AckDelayModule.Run | hls/toe/ack_delay/ack_delay.cpp:19-48 | one call over the table, and what it forwards |
| RetransmitTimer.RunIsLawful | hls/toe/retransmit_timer/retransmit_timer.cpp:54-158 | in every run retransmissions since the last reset or abort carry the counts 1, 2, 3, 4 in order, each after exactly its own interval and for the kind last armed, and a session is given up only at the fifth expiry |
| RetransmitTimer.OneNoticePerRelease | hls/toe/retransmit_timer/retransmit_timer.cpp:118-147 | in every run the releases sent are the sessions given up, each at the expiry after retransmissions 1, 2, 3, 4, and each goes with exactly one notice: to the opening application if a SYN was given up on, to the using one otherwise |
| RetransmitTimer.RequestsAreTakenInOrder | hls/toe/retransmit_timer/retransmit_timer.cpp:54-77 | in every run the requests of either kind are carried out once and in the order they came, but for those that wait and the one held back |
| RetransmitTimer.RunningTimerExpires | hls/toe/retransmit_timer/retransmit_timer.cpp:84-124 | from any state a running timer expires at exactly the visit its remaining time says, while nothing arrives |
| RetransmitTimer.StartAfterStopSurvivesIff | hls/toe/retransmit_timer/retransmit_timer.cpp:54-66 | a start that follows a stop keeps the timer running if and only if the entry touched last was another session's |
| RetransmitTimer.CursorLeavesTableIff | hls/toe/retransmit_timer/retransmit_timer.cpp:75-77 | exactly when the cursor is pushed past the 128 entries |
| RetransmitTimer.CursorReaches132 | hls/toe/retransmit_timer/retransmit_timer.cpp:75-85 | a run from the start in which it comes to 132 |
| RetransmitTimer.RetransmitTimerModule.constructor | hls/toe/retransmit_timer/retransmit_timer.cpp:41-48 | an idle table and empty streams |
| RetransmitTimer.RetransmitTimerModule.WriteClear | hls/toe/retransmit_timer/retransmit_timer.cpp:54-62 | the RX engine's request is written into its entry |
| RetransmitTimer.RetransmitTimerModule.ArmTimer | hls/toe/retransmit_timer/retransmit_timer.cpp:69-115 | the TX engine's request arms its entry and moves the cursor |
| RetransmitTimer.RetransmitTimerModule.GiveUp | hls/toe/retransmit_timer/retransmit_timer.cpp:125-147 | a release, and one notice by the kind last armed |
| RetransmitTimer.RetransmitTimerModule.VisitNext | hls/toe/retransmit_timer/retransmit_timer.cpp:79-158 | a visit counts down, asks for a retransmission or gives up |
| RetransmitTimer.RetransmitTimerModule.Run | hls/toe/retransmit_timer/retransmit_timer.cpp:54-158 | one call |
| PortTable.RunIsSound | hls/toe/port_table/port_table.cpp:21-205 | in every run of the four processes the tables tell who holds each port, ports are opened only while free, the ports handed out are exactly the upper ones opened, and every check is in one place, in order |
| PortTable.ChecksAreAskedInOrder | hls/toe/port_table/port_table.cpp:123-150 | in every run the checks asked are those that arrived, in order |
| PortTable.AnswersComeInOrder | hls/toe/port_table/port_table.cpp:123-205 | the k-th answer answers the k-th check, and tells who held its port at some moment between the check and now |
| PortTable.ChecksNeverStick | hls/toe/port_table/port_table.cpp:123-205 | in every run, while a check is unanswered, the output multiplexer can step or the table it waits for replies as soon as it has served the requests that come first |
| PortTable.OpenedTwiceOnlyIfClosedBetween | hls/toe/port_table/port_table.cpp:91-118 | in every run a port is opened again only after it was released, and a listening port never |
| PortTable.ListenAnswerIff | hls/toe/port_table/port_table.cpp:35-56 | in every run a request to listen succeeds if and only if the port is in the lower half and free, and its sender then holds it; otherwise nothing changes; and the answer's flags |
| PortTable.ReleaseFreesPort | hls/toe/port_table/port_table.cpp:91-104 | in every run a release leaves a handed-out port with nobody and every other port as it was; one of the lower half changes nothing |
| PortTable.FreeRequestIsAnsweredIff | hls/toe/port_table/port_table.cpp:105-119 | a request gets a port, and holds it, if and only if the one under the cursor is free; otherwise no answer, only the cursor moves |
| PortTable.FreePortIsReached | hls/toe/port_table/port_table.cpp:105-119 | repeated requests come to any free port after exactly its distance from the cursor |
| PortTable.PortTableModule.constructor | hls/toe/port_table/port_table.cpp:28-86 | all ports free, empty streams |
| PortTable.PortTableModule.ServeListening | hls/toe/port_table/port_table.cpp:21-62 | one call: listen requests before checks |
| PortTable.PortTableModule.ServeFree | hls/toe/port_table/port_table.cpp:77-121 | one call: releases, then checks, then requests |
| PortTable.PortTableModule.MultiplexIn | hls/toe/port_table/port_table.cpp:123-150 | one check goes to the table of its half, its destination noted |
| PortTable.PortTableModule.MultiplexOut | hls/toe/port_table/port_table.cpp:155-205 | destinations are read and replies passed on in turn |
| RingMemory.StoredByte | hls/toe/mock/mock_memory.hpp:82-104 | a stored byte is read back from its slot, across the ring's end |
| RingMemory.KeptByte | hls/toe/mock/mock_memory.hpp:82-104 | bytes less than a buffer behind the stored range are not touched |

## Left out

- TxWindow.RunKeeps: one session's pointers, since sessions share no field; no FIN, every data mover status okay, writes of fewer than 2^16 bytes (longer ones: `WriteIsConfirmedIff`).
- TxWindow.StepKeeps: a burst reads the table once and writes it once, so its segments appear in one step; that the table may serve others between two segments is not modelled.
- TxEngine.BurstIsSafe: the FIN's own step is left out, as `curr_length` wraps after it; `FinFollowsIff` says when a burst goes on to it.
- TxDatapath.TxDatapath.ReadMeta: the payload beats of an admitted write are taken with its decision instead of one by one.
- RxWindow.RunKeeps: one session; a read takes its bytes in the step that moves the read pointer, while the code publishes the freed space before the memory read is done; segments with FIN are left out, their payload is checked neither for acknowledgement range nor for space.
- RxWindow.DeliveredIsPrefixOfPeer: assumes that a segment lies less than the whole sequence space, 2^32, away from the next byte expected.
- TxDatapath.TxDatapath.EngineTransmit: payloads are read from memory as from a ring; where the reader and the packet assembly behind it differ from that is what `MemoryRead.ReadIsExactIff` and `TxPacket.SegmentsAreIntactIff` say.
- RxDatapath.RxDatapath.WaitSarRsp: the same for the application's reads, `MemoryRead.ReadIsExactIff`.
- SessionLookup.RunKeeps: the look-ups of roles and tuples by the applications and the TX engine only read, and are left out; the tuple is the four-field one.
- CuckooTable.RunIsMap: the tabulation hash stands for any function into the tables; its random tables are not part of this model.
- TcpStates.EveryChangeIsLawful: the comparisons of a segment with the two SAR tables are given with it; the initialisation of those tables in the handshake is left out.
- RxVerdicts.PayloadsNeverSlip: a packet carries the answers that checksum unit, port table and session table give for it, so it speaks for all answers but does not compute them; `SegmentsNeverSlip` joins the state machine's.
- MemoryWrite.WriteIsRingStore: the keep masks of the payload are assumed to be low runs, as the parser produces them.
- MemoryRead.ReadYields: the data mover answers every command with one packet of the bytes named, and an empty one with nothing or with one beat that keeps nothing; reads of no bytes, which the application's handler refuses, are left out.
- RxHeader.ParserSlices: data offsets of 13 and more, for which the 6-bit offset register wraps, are left out; options are not read.
- TxPacket.SegmentsAreIntactIff: headers without options before a payload; the fields of the header word itself and the test-only IP checksum are left out.
- EthernetFraming.InsertThenStrip: the stream's destination field, the queries to the ARP server and the recognition of ARP frames are left out; a flag says whether a frame is one.
- EventGate.RunKeeps: a step that finds its output full does not happen, as the hardware stalls it.
- AckDelay.AbsorbedAckIsSent: idle steps count only with room to send.
- RetransmitTimer.RunningTimerExpires: while requests to arm arrive the cursor skips entries, so no bound is stated for that; times are counted in visits, not seconds.
- PortTable.RunIsSound: streams are unbounded, but for the answer to a free-port request, which may be full.
- PortTable.FreePortIsReached: the open handler asks once and waits, so an unanswered request blocks it; the lemma is about the table alone.
- Checksums.InsertedHeaderVerifies: header lengths below three words, which have no checksum field, are left out.
- The congestion window, slow start threshold and fast retransmit: only that the window used is the smaller of the two.
- The handshake, probe timer, close timer, ARP server, ICMP drop path, stream mergers, top-level wiring and network applications: easy members, or outside the core.
- Logging, packet capture files, register maps, Verilog and scripts: tooling.
- Throughput and timing: one step is one call, clock rates do not appear.
