# A model of the ESP8266 network stack

The repository holds a small hand-written network stack: ARP, IPv4, ICMP echo and TCP over the ESP8266's Wi-Fi driver.
This project models its logic in Dafny 4.11 and proves what it guarantees in every run.

- **TCP.** `TcpPort` is one row of the port table and what the code does to it. `TcpEngine` is the table of eight rows with
  its send queue and literal lookups; `TcpTask` is the task as the code runs it, changing the rows in place, each method
  proved to have exactly the effect of its function in `TcpEngine`. `TcpConnection` follows one connection with a history
  of its sequence space, `TcpSoundness` proves its invariant for every step, `TcpPair` composes two of them over a network
  that may lose, duplicate and reorder, `TcpHandshake` and `TcpCallbacks` add the order of the handshake and the callbacks,
  and `TcpTheorems` states what follows for whole runs. On top of these, `TcpLaunches` ties transmissions to the timers,
  `TcpStream` and `TcpApplications` tie the numbered stream to what applications sent, `TcpBacking` ties what is delivered
  to segments that were sent, `TcpPassive` says where the passive side starts, `TcpStranded` what an early release costs,
  and `TcpWitness` gives two concrete runs. `TcpArrivals` and `TcpRetransmission` say by flags, numbers and times alone what
  every arrival and every scan of a run does, and `TcpEffects` says the same of every event of a table; `TcpClosing` drives
  a passive close through a table to its end. `TcpDemux`, `TcpOwnership`, `TcpLeaks` and `TcpDeadlock` are about runs of the
  whole table; `TcpProjection` and `TcpHosts` show that one connection between two hosts, each with its full table and
  other traffic, is a run of the two-endpoint system, so the delivery theorem holds of the tables. `TcpListeners` is about
  rows in LISTEN, `TcpTable` lifts the single-connection theorems to runs of one table, and `TcpTableWitness` gives table
  runs that leak, that deadlock and in which a listener connects. `TcpWire` is the byte format, with options, and shows that
  the network of these proofs is what the packets carry.
- **ARP.** `ArpCache` (the ring and the first-in first-out map it refines), `ArpResolver` (the request and release
  protocol), `ArpWaiting` (who waits, what ends the wait and when its deadline was set), `ArpWorker` (the worker task, in
  place), `ArpPacket` (the packets and the exchange).
- **Checksum and packets.** `NetTypes` (byte order), `Checksum`, `Buffers` (writing through a moving pointer), `Ipv4`,
  `Ipv4Task` (the transmit queue), `Icmp`.

Check everything with `dafny verify dfyconfig.toml`.

## What the statements rest on

- One step of the TCP task, the ARP worker, the IPv4 task or an application call is atomic.
- A call the TCP task makes with an unlimited timeout (`tcp.c` 371, 400, 456, 605, 678) is a step that is enabled only when
  it has room (`Blocked` otherwise).
- Payloads are at most 65495 bytes, so that both headers and the payload fit an IPv4 packet. Local port numbers are nonzero;
  remote addresses and ports of connections are nonzero.
- Statements about two endpoints, and those that rest on the plain comparisons at `tcp.c` 335 and 342, are for fewer than
  2^32 sequence numbers per connection and direction (`NoWrap`, `Numbered`); so is `TransmissionSpacing`, which identifies
  segments by their sequence number. Tiling, conservation, the spacing of launches, ownership and demultiplexing need no
  such bound.
- A (self port, other port, address) triple is not brought to life again while the table or the network may hold something
  of its earlier life (`Fresh`, `OpenedOnce`): `tcp_reset_port` does not purge the send queue.
- The release test is `seq_num <= ack`: a released slot need not be fully acknowledged. `ReleaseIsExactIff` says when it is.
  The ordinary acknowledgement of the first of two segments in flight releases both (`ReleasedInTransit`). The second is
  then never handed to IPv4 again (`NeverResent`), and the peer never gets past the first unless a copy still in the
  network arrives (`StuckUnlessBrought`); when none was sent it is lost for good (`ReleasedUnsent`, `StuckForever`).
- Applications may close a listener, whose row then stays in FIN_WAIT_1 for good (`ClosedListenerStays`). Statements about
  connections seen through tables are for runs in which no application sends on a row in LISTEN (`Orderly`); those about
  demultiplexing, ownership and leaks are not.
- What arrives in SYN_RECEIVED advances `ack_num` and is never delivered, so delivery is stated from `ack_num` on entering
  ESTABLISHED. `PassiveStartIff` says exactly when that is the start of the peer's data.
- The comment at `tcp.c` 768 says that a failed transmission has already freed its payload. The code does so only when the
  failure is an allocation; a retransmission the IPv4 queue refuses loses its payload unfreed (`HandleDropsIff`). The model
  follows the code.
- ARP statements about the cache are for nonzero addresses, since 0.0.0.0 matches rows never filled; ARP ticks do not wrap.

## Model

| member | source | states |
|---|---|---|
| `TcpTheorems.EndToEndDelivery` | components/net_stack/protocols/tcp.c:325-469 | in every run of two endpoints over a losing, duplicating, reordering network the bytes given to on_receive are the in-order, gap-free, duplicate-free stretch of the peer's numbered stream that starts at ack_num on entering ESTABLISHED and ends at ack_num while ESTABLISHED; for the active opener a prefix of the peer's data |
| `TcpApplications.ApplicationDelivery` | components/net_stack/protocols/tcp.c:243-260 | what one application received is a stretch of the bytes the other application's served sends carried, in order, less those lost before recording, for an active opener a prefix of them; and the payloads of the accepted sends are, in order, those served and those still queued |
| `TcpApplications.SideIsConnRun` | components/net_stack/protocols/tcp.c:685-780 | either side of a two-endpoint run is a run of its connection, so every single-connection theorem holds of it |
| `TcpStream.StreamIsAcceptedData` | components/net_stack/protocols/tcp.c:133-260 | accepted payloads are served in order or still queued, and the data of the numbered stream is what was served less what was lost |
| `TcpBacking.RunBacked` | components/net_stack/protocols/tcp.c:453-469 | every byte delivered was carried by a segment the peer handed to IPv4 |
| `TcpHosts.TableDelivery` | components/net_stack/protocols/tcp.c:283-518 | for two hosts running their whole port tables, with other connections and arbitrary third-host traffic, the bytes received are a stretch of a stream that ends at the sending row's seq_num and that every sent segment spells out, each byte carried by a segment that was sent, ending at ack_num while ESTABLISHED, and a prefix of the data after the SYN for a side that opened by connect |
| `TcpHosts.TableAcknowledgements` | components/net_stack/protocols/tcp.c:334-361 | through the tables, the peer row's ack_num and every acknowledgement in flight stay at or below a row's seq_num |
| `TcpHosts.Simulate` | components/net_stack/protocols/tcp.c:685-780 | every run of two hosts contains, for a connection opened at most once on each side, a run of the two-endpoint system that reflects both tables |
| `TcpProjection.HandleShows` | components/net_stack/protocols/tcp.c:685-780 | any event a table with fresh listeners handles is, for one remote triple, the corresponding step of its connection or leaves it alone |
| `TcpTable.TableRunIsConnRun` | components/net_stack/protocols/tcp.c:685-780 | every run of a table with a real clock, against any network, contains for each remote triple opened at most once a run of its connection that the table always shows |
| `TcpTable.TableSlotConservation` | components/net_stack/protocols/tcp.c:225-239 | in such a run a live row's semaphore, in-use slots, queued reliable segments and slots lost by the table's events add up to MAX_UNACKED, and the full-buffer branch is unreachable |
| `TcpTable.TableCallbackLanguage` | components/net_stack/protocols/tcp.c:376-518 | in such a run the callbacks made for a triple are a prefix of connect, receive*, disconnect when its close commands find it between the two |
| `TcpTable.TableTiling` | components/net_stack/protocols/tcp.c:172-197 | in such a run the numbered segments sent on a triple repeat tiles that partition a stream ending at the row's seq_num |
| `TcpTable.TableTransitionGraphIff` | components/net_stack/protocols/tcp.c:376-518 | an event takes a triple's port out of the intended graph exactly when it is a close command that finds it outside ESTABLISHED and FIN_WAIT_1 |
| `TcpPair.RunAgrees` | components/net_stack/protocols/tcp.c:325-442 | the two-endpoint invariant holds in every reachable state |
| `TcpPair.SentIsSlice` | components/net_stack/protocols/tcp.c:172-197 | every segment ever sent, first or repeated, spells out the sender's stream at its sequence number |
| `TcpTheorems.SequenceTiling` | components/net_stack/protocols/tcp.c:172-197 | first transmissions partition [0, seq_num) without gap or overlap, in-use slots hold distinct tiles, every sent segment that consumes numbers repeats a tile's seq, control and bytes |
| `TcpSoundness.NextSound` | components/net_stack/protocols/tcp.c:133-518 | every step of a connection, with failures and wrap-around, keeps the invariant |
| `TcpTheorems.AcknowledgementSafety` | components/net_stack/protocols/tcp.c:334-361 | in both directions ack_num and every acknowledgement in flight never exceed the peer's seq_num, so the guard always passes |
| `TcpTheorems.HandshakeOrder` | components/net_stack/protocols/tcp.c:385-440 | when applications act only after on_connect, the passive side is connected only after the active side, each ack_num past the other's SYN |
| `TcpTheorems.SlotConservation` | components/net_stack/protocols/tcp.c:225-239 | semaphore count, in-use slots, queued reliable segments and the counted losses always add up to MAX_UNACKED; the full-buffer branch is unreachable |
| `TcpTheorems.LostIsLosses` | components/net_stack/protocols/tcp.c:136-147 | slots are consumed for good exactly by first sends that fail before recording and zero-length sends |
| `TcpTheorems.AcknowledgementProcessing` | components/net_stack/protocols/tcp.c:334-351 | an accepted ACK releases every slot that ends at or before it and at most one more, touches none that starts after it, gives once per release |
| `TcpTheorems.ReleaseIsExactIff` | components/net_stack/protocols/tcp.c:342-348 | only fully acknowledged slots are released if and only if no in-use slot's range contains the acknowledgement |
| `TcpWitness.ReleasedUnsent` | components/net_stack/protocols/tcp.c:342-348 | a run in which the acknowledgement of exactly the first of two bytes releases the second too, which was never sent |
| `TcpWitness.ReleasedInTransit` | components/net_stack/protocols/tcp.c:342-348 | the same with both bytes handed to IPv4 and only the first received so far |
| `TcpStranded.NeverResent` | components/net_stack/protocols/tcp.c:336-350 | once a first transmission is in no slot, whatever was sent before, no continuation hands IPv4 another segment at its sequence number |
| `TcpStranded.StuckUnlessBrought` | components/net_stack/protocols/tcp.c:325-361 | a receiver short of such a transmission never acknowledges or delivers past it in any continuation in which no earlier copy arrives |
| `TcpStranded.StuckForever` | components/net_stack/protocols/tcp.c:336-350 | when no copy was ever sent, no continuation sends it and the receiver never gets past it |
| `TcpTheorems.LaunchSpacing` | components/net_stack/protocols/tcp.c:747-766 | no tile is launched twice within RETRANSMIT_TIMEOUT ticks of the real clock, across tick wrap |
| `TcpLaunches.TransmissionSpacing` | components/net_stack/protocols/tcp.c:747-766 | in every run of a connection with fewer than 2^32 sequence numbers two segments handed to IPv4 that start at the same sequence number are handed over at least RETRANSMIT_TIMEOUT ticks apart on the real clock |
| `TcpTheorems.TimeWaitExpiry` | components/net_stack/protocols/tcp.c:740-745 | a scan resets a TIME_WAIT port exactly when the elapsed ticks modulo 2^32 exceed TIME_WAIT_DURATION, and never earlier on the real clock |
| `TcpTheorems.CallbackLanguage` | components/net_stack/protocols/tcp.c:376-518 | the callbacks of an incarnation are a prefix of connect, receive*, disconnect, and CLOSE_WAIT is never entered |
| `TcpTheorems.CloseKeepsLanguageIff` | components/net_stack/protocols/tcp.c:660-679 | after a close command every continuation keeps the callbacks in the language if and only if the command was handled between connection and disconnection |
| `TcpTheorems.TransitionGraphIff` | components/net_stack/protocols/tcp.c:376-518 | a step of any run leaves the intended transition graph exactly when it is a close command handled outside ESTABLISHED and FIN_WAIT_1 |
| `TcpArrivals.ArrivalInRun` | components/net_stack/protocols/tcp.c:318-518 | in every run each arrival ends a live connection if and only if it is a reset or, in LAST_ACK, an in-sequence ACK equal to seq_num; enters ESTABLISHED, LAST_ACK, FIN_WAIT_2 and TIME_WAIT exactly on the segments that complete the handshake, bring the peer's FIN, acknowledge this side's close or follow it; and makes exactly the callbacks, numbers, releases and replies those conditions call for |
| `TcpArrivals.PassiveCloseCompletes` | components/net_stack/protocols/tcp.c:443-490 | from any sound ESTABLISHED connection with a slot and room, the peer's FIN, transmitting the queue and the acknowledgement of it all end the connection, its own FIN sent and the disconnection reported |
| `TcpRetransmission.ScanRepeatsLate` | components/net_stack/protocols/tcp.c:747-766 | in every run a scan hands IPv4 a repetition of the tile of every in-use slot last launched at least RETRANSMIT_TIMEOUT ago on the real clock modulo 2^32, memory and room given, control segments included, and repeats no other tile |
| `TcpRetransmission.TableScanRepeatsLate` | components/net_stack/protocols/tcp.c:735-776 | a scan of any table with distinct triples frees exactly the rows whose TIME_WAIT is over, sends exactly the late slots of the other live rows and changes nothing but their slots |
| `TcpEffects.ArrivalOutcomeInTable` | components/net_stack/protocols/tcp.c:283-519 | an arrival at a live row of any table with distinct triples has exactly that outcome for its row and leaves the others alone |
| `TcpEffects.ArrivalInTableRun` | components/net_stack/protocols/tcp.c:685-780 | the same at every step of a table run, for a triple that comes to life at most once |
| `TcpEffects.StrangerIgnored` | components/net_stack/protocols/tcp.c:291-316 | a segment of an unknown remote changes nothing unless it is a SYN for a listening port |
| `TcpEffects.ListenOutcome` | components/net_stack/protocols/tcp.c:629-644 | listening puts one row in LISTEN for the port, all slots free, into the first unused place and changes no other; in a full table it changes nothing |
| `TcpEffects.SynReachesListener` | components/net_stack/protocols/tcp.c:291-297 | a SYN for a listening port from an unknown remote finds a listener |
| `TcpEffects.AcceptOutcome` | components/net_stack/protocols/tcp.c:385-400 | such a SYN, not a reset and with room, turns the listener's row into a SYN_RECEIVED row for its source, one past the SYN, with the SYN+ACK queued |
| `TcpEffects.ConnectOutcome` | components/net_stack/protocols/tcp.c:580-606 | connecting puts one SYN_SENT row into the first unused place with its SYN queued, room given |
| `TcpEffects.CloseOutcome` | components/net_stack/protocols/tcp.c:660-679 | closing puts the row of the triple into FIN_WAIT_1 from any state with a FIN queued, room given, and an unknown triple changes nothing |
| `TcpEffects.SendOutcome` | components/net_stack/protocols/tcp.c:218-260 | an accepted send takes one slot and queues its payload; a refused one frees it and changes no row |
| `TcpEffects.ServeOutcome` | components/net_stack/protocols/tcp.c:133-215 | serving an entry records what consumes numbers in the first free slot under the row's next number and hands IPv4 its bytes with that number and the row's acknowledgement |
| `TcpTableWitness.ListenerConnects` | components/net_stack/protocols/tcp.c:385-442 | a reachable table in which a port listens, hears a SYN, answers it and is connected by the acknowledgement |
| `TcpClosing.TablePassiveClose` | components/net_stack/protocols/tcp.c:443-490 | from any table with distinct triples and an ESTABLISHED row with a slot and room, the peer's FIN, serving the whole queue and the acknowledgement of everything sent free the row, its FIN queued and the disconnection reported last |
| `TcpPassive.PassiveStartIff` | components/net_stack/protocols/tcp.c:359-442 | in every run a connected passive side starts right after the peer's SYN if and only if no arrival accepted in SYN_RECEIVED consumed sequence numbers, and then receives a prefix of the peer's data |
| `TcpPassive.PassiveStartDisciplined` | components/net_stack/protocols/tcp.c:422-442 | when applications act only after on_connect, that is so if and only if the segment completing the handshake carries nothing |
| `TcpWitness.SwallowedBeforeBareCompletion` | components/net_stack/protocols/tcp.c:359-442 | a run in which a bare segment completes the handshake and the peer's first byte is still never delivered |
| `TcpOwnership.BufferOwnership` | components/net_stack/protocols/tcp.c:111-239 | with allocation failures and refusals, a payload given once is freed at most once and never touched after its release; given equals held plus released at all times |
| `TcpOwnership.HandleOwns` | components/net_stack/protocols/tcp.c:685-780 | every event of the task accounts for every payload it touches |
| `TcpOwnership.ReplayConserves` | components/net_stack/protocols/tcp.c:111-121 | in a log where only held payloads are released, given equals held plus released |
| `TcpLeaks.NoLeakIff` | components/net_stack/protocols/tcp.c:111-239 | in a run every payload given is held or freed as often as given if and only if no event so far dropped one |
| `TcpLeaks.RunDropsIff` | components/net_stack/protocols/tcp.c:685-780 | a run loses a payload if and only if one of its events is one of the two that do |
| `TcpLeaks.HandleDropsIff` | components/net_stack/protocols/tcp.c:685-780 | an event drops a payload if and only if it serves an empty one on a known port with memory available, or scans a live row that has not timed out with a due slot whose retransmission the IPv4 queue refuses |
| `TcpLeaks.ServeDropsIff` | components/net_stack/protocols/tcp.c:133-197 | serving the send queue loses a pointer exactly for a zero-length payload whose segment is built |
| `TcpLeaks.ScanDropsIff` | components/net_stack/protocols/tcp.c:735-776 | the scan loses a payload exactly where a due slot's retransmission is refused by the IPv4 queue |
| `TcpTableWitness.EmptyPayloadLost` | components/net_stack/protocols/tcp.c:194-197 | a reachable table in which serving a zero-length payload leaves it neither held nor freed |
| `TcpTableWitness.RefusedRetransmissionLost` | components/net_stack/protocols/tcp.c:766-771 | a reachable table in which a refused retransmission leaves its payload neither held nor freed |
| `TcpDeadlock.BlockedIff` | components/net_stack/protocols/tcp.c:359-372 | the task waits for itself exactly when an arrival must be acknowledged with the send queue full, or a port without a free slot must answer reliably or be closed |
| `TcpDeadlock.WaitsForever` | components/net_stack/protocols/tcp.c:218-240 | once it waits, no sequence of application sends lets it go on |
| `TcpTableWitness.TaskWaits` | components/net_stack/protocols/tcp.c:371-371 | a reachable table in which a close command and the arrival of the SYN+ACK both leave the task waiting for itself |
| `TcpDemux.DemuxUniqueness` | components/net_stack/protocols/tcp.c:55-75 | with fresh triples live rows always have pairwise distinct triples and every row finds itself |
| `TcpDemux.LookupStable` | components/net_stack/protocols/tcp.c:55-63 | while a row lives, its triple resolves to it at every later step, so enqueueing and transmitting find the same port |
| `TcpDemux.RowKeepsTriple` | components/net_stack/protocols/tcp.c:385-388 | no event rebinds a live row |
| `TcpDemux.HandleDistinct` | components/net_stack/protocols/tcp.c:522-530 | every event, including LISTEN to SYN_RECEIVED and calls on a listener's own triple, keeps triples distinct |
| `TcpDemux.QueueIsRemote` | components/net_stack/protocols/tcp.c:218-260 | when no call names a listener's own triple every queued segment is for a remote endpoint |
| `TcpListeners.HandleTame` | components/net_stack/protocols/tcp.c:629-679 | every event but a send on a listener keeps rows in LISTEN as fresh as created and the rows of closed listeners in place |
| `TcpListeners.ClosedListenerStays` | components/net_stack/protocols/tcp.c:660-679 | the row of a closed listener is never freed |
| `TcpListeners.SendSpoilsListener` | components/net_stack/protocols/tcp.c:243-260 | a send queued on a listener leaves its row in LISTEN short of a slot |
| `TcpTask.Task.constructor` | components/net_stack/protocols/tcp.c:782-821 | a new task has the empty table and queue |
| `TcpTask.Task.FindIndex` | components/net_stack/protocols/tcp.c:55-63 | the loop returns the first row with the triple, or none |
| `TcpTask.Task.FindListeningIndex` | components/net_stack/protocols/tcp.c:65-75 | the loop returns the first listener on the port, or none |
| `TcpTask.Task.FindUnusedIndex` | components/net_stack/protocols/tcp.c:522-530 | the loop returns the first unused row, or none |
| `TcpTask.Task.FindEmptySlot` | components/net_stack/protocols/tcp.c:77-85 | the loop returns the first free slot, or none |
| `TcpTask.ReleaseRow` | components/net_stack/protocols/tcp.c:336-350 | the acknowledgement loop releases, gives and frees exactly the slots at or below the acknowledgement |
| `TcpTask.Task.ReleaseAcked` | components/net_stack/protocols/tcp.c:334-351 | the same in the table, other rows unchanged |
| `TcpTask.ResetRow` | components/net_stack/protocols/tcp.c:111-129 | the two loops of the reset free the payloads in use and fill the semaphore |
| `TcpTask.Task.ResetPort` | components/net_stack/protocols/tcp.c:111-129 | the same in the table, other rows unchanged |
| `TcpTask.Task.SendInternal` | components/net_stack/protocols/tcp.c:133-215 | the whole new table, payload events and sent segment of a first or repeated transmission, with the result reported |
| `TcpTask.Task.EnqueueReliable` | components/net_stack/protocols/tcp.c:218-240 | lookup, semaphore, closed port and full queue have the effect of `Enqueue` |
| `TcpTask.Task.Send` | components/net_stack/protocols/tcp.c:243-260 | the payload is queued for the port found or freed |
| `TcpTask.Task.ServeSendQueue` | components/net_stack/protocols/tcp.c:691-702 | the oldest queue entry is transmitted |
| `TcpTask.Task.ConnectInternal` | components/net_stack/protocols/tcp.c:580-606 | a fresh SYN_SENT row with its SYN queued, or nothing |
| `TcpTask.Task.ListenInternal` | components/net_stack/protocols/tcp.c:629-644 | a fresh LISTEN row, or nothing, as `ListenOutcome` spells out |
| `TcpTask.Task.CloseInternal` | components/net_stack/protocols/tcp.c:660-679 | FIN_WAIT_1 from any state with a FIN queued |
| `TcpTask.Task.AbsorbSegment` | components/net_stack/protocols/tcp.c:334-374 | acknowledgement processing and the acknowledgement of what arrived |
| `TcpTask.Task.SwitchState` | components/net_stack/protocols/tcp.c:376-518 | the state switch with its callbacks and the reply to enqueue, which `ArrivalInRun` and `AcceptOutcome` state by flags and numbers |
| `TcpTask.Task.InputInternal` | components/net_stack/protocols/tcp.c:283-519 | an arriving segment has exactly the effect of `Input` on the table |
| `TcpTask.Task.RetransmitSlot` | components/net_stack/protocols/tcp.c:747-772 | one slot: skipped, repeated or given up, by its age alone (`ScanRepeatsLate`) |
| `TcpTask.Task.RetransmitPort` | components/net_stack/protocols/tcp.c:747-773 | the loop over the slots |
| `TcpTask.Task.ScanTimeouts` | components/net_stack/protocols/tcp.c:735-776 | the whole idle scan |
| `TcpPort.WrapIsMod` | components/net_stack/protocols/tcp.c:192-193 | the model's wrap-around is the remainder modulo 2^32 |
| `TcpWire.BuildDatagram` | components/net_stack/protocols/tcp.c:133-203 | the buffer filled behind its pseudo-header, signed and moved down holds the datagram |
| `TcpWire.SegmentVerifies` | components/net_stack/protocols/tcp.c:149-199 | pseudo-header and datagram verify for every segment |
| `TcpWire.SegmentRoundTrip` | components/net_stack/protocols/tcp.c:283-317 | decoding what was encoded gives back the segment |
| `TcpWire.OptionsSkipped` | components/net_stack/protocols/tcp.c:283-288 | for every fixed header, up to ten words of options and any payload, with the offset counting both, decoding gives the header's fields and exactly the payload |
| `TcpWire.DecodedIff` | components/net_stack/protocols/tcp.c:283-289 | a datagram is decoded exactly when its offset is at least five words and stays within it, and an offset below five is refused |
| `TcpWire.WireSkipsOptions` | components/net_stack/protocols/tcp.c:359-467 | the same through an IPv4 packet with any padding |
| `TcpWire.SegmentConstants` | components/net_stack/protocols/tcp.c:149-199 | the offset, window and urgent bytes of every segment |
| `TcpWire.WireVerifies` | components/net_stack/protocols/tcp.c:149-199 | a receiver that makes up the pseudo-header from the packet it got finds the checksum in order |
| `TcpWire.WireCarriesSegment` | components/net_stack/protocols/tcp.c:206-215 | a segment in an IPv4 packet with any padding is the same segment at its destination and is dropped elsewhere |
| `ArpResolver.WaiterConservation` | components/net_stack/protocols/arp.c:272-328 | in every run each outstanding caller is in exactly one place, queue, one waiting list or one notification, and nobody else is anywhere |
| `ArpResolver.PendingTable` | components/net_stack/protocols/arp.c:279-319 | active slots have distinct addresses, at most 8 waiters and expire within the timeout; after each iteration no waiter is left in a slot overdue at its tick |
| `ArpResolver.ReleasedFindsMac` | components/net_stack/protocols/arp.c:78-111 | whoever a learned pair releases finds its MAC in the cache, and no waiter for the address remains |
| `ArpWaiting.WaitsIffAdmitted` | components/net_stack/protocols/arp.c:296-325 | in every run serving a request leaves its task waiting, unnotified, if and only if there was a live slot for the address with fewer than 8 waiters, or none for it, a free slot and a request sent, with a deadline one timeout later; otherwise it is notified at once |
| `ArpWaiting.LeavesIffReleased` | components/net_stack/protocols/arp.c:78-111 | in every run a waiter leaves its list exactly in an iteration at or past the deadline or one that learns the address, with its notification, and finds the MAC after a learned pair |
| `ArpWaiting.ListWasSetUp` | components/net_stack/protocols/arp.c:48-59 | every waiting list was set up by a request sent one timeout before its deadline and has had waiters for that address ever since |
| `ArpWaiting.CallReturns` | components/net_stack/protocols/arp.c:367-377 | a call returns only after its address was learned while it waited, a whole timeout after its list was set up, or a refusal for a full table, a full list or a failed send |
| `ArpWaiting.QueuesInOrder` | components/net_stack/protocols/arp.c:292-327 | in every run the requests made are, in order, those served and those queued, the replies that found room are the pairs taken and those queued, and the cache is what the pairs taken make of it |
| `ArpWaiting.CacheInRun` | components/net_stack/protocols/arp.c:78-122 | in every run of the resolver a lookup succeeds exactly for the last 16 misses among the pairs taken, with the latest MAC |
| `ArpResolver.NextConserves` | components/net_stack/protocols/arp.c:367-377 | asking, returning, replying and working each keep the conservation |
| `ArpCache.CacheIsFifo` | components/net_stack/protocols/arp.c:78-122 | a lookup succeeds exactly for the last 16 misses, with the MAC of the latest entry, and no nonzero address is in two rows |
| `ArpCache.RunRefines` | components/net_stack/protocols/arp.c:78-100 | the ring refines a 16-deep first-in first-out map with update in place |
| `ArpCache.FifoIsLastMisses` | components/net_stack/protocols/arp.c:89-100 | the map holds the last 16 misses in order, each with the latest MAC |
| `ArpCache.Cache.constructor` | components/net_stack/protocols/arp.c:27-27 | the cache starts all zeroes |
| `ArpCache.Cache.Add` | components/net_stack/protocols/arp.c:78-100 | duplicate search and insertion have the effect of `AddToRing` |
| `ArpCache.Cache.Lookup` | components/net_stack/protocols/arp.c:114-122 | the loop returns the MAC of the first matching row, or none |
| `ArpWorker.Worker.constructor` | components/net_stack/protocols/arp.c:29-33 | the worker starts with an empty table |
| `ArpWorker.Worker.FindPendingIndex` | components/net_stack/protocols/arp.c:35-46 | the loop returns the first active slot for the address, or none |
| `ArpWorker.Worker.FindFreeIndex` | components/net_stack/protocols/arp.c:48-59 | the loop returns the first free slot, or none |
| `ArpWorker.Worker.ReleaseWaiters` | components/net_stack/protocols/arp.c:106-110 | every waiter is notified once and the slot freed |
| `ArpWorker.Worker.ExpireOverdue` | components/net_stack/protocols/arp.c:279-290 | exactly the slots whose time has come are released |
| `ArpWorker.Worker.ServeRequest` | components/net_stack/protocols/arp.c:296-319 | first request, repeated request, full table, full list and failed send, which `WaitsIffAdmitted` tells apart |
| `ArpWorker.Worker.LearnEntry` | components/net_stack/protocols/arp.c:78-111 | caching, then releasing |
| `ArpWorker.Worker.RunOnce` | components/net_stack/protocols/arp.c:275-327 | one iteration of the worker loop |
| `ArpPacket.BuildRequest` | components/net_stack/protocols/arp.c:124-160 | the 28 bytes of a request, the six target bytes being whatever was there |
| `ArpPacket.BuildReply` | components/net_stack/protocols/arp.c:176-211 | the 28 bytes of a reply |
| `ArpPacket.FrameFields` | components/net_stack/protocols/arp.c:124-211 | every field of a packet, the two address lengths and the target included, at its place in network order |
| `ArpPacket.Exchange` | components/net_stack/protocols/arp.c:223-270 | a request is answered by the host asked for alone, and its reply yields exactly that host's address pair, whatever the unset bytes and padding |
| `ArpPacket.ExchangeResolves` | components/net_stack/protocols/arp.c:248-263 | once the reply is processed every waiter for the host is notified and would find its MAC |
| `NetTypes.SwapTwice16` | components/net_stack/utility/endian.h:16-18 | swapping twice gives the value back |
| `NetTypes.SwapTwice32` | components/net_stack/utility/endian.h:24-29 | swapping twice gives the value back |
| `NetTypes.NetworkOrder16` | components/net_stack/utility/endian.h:16-37 | a load and ntohs read, htons and a store write, big-endian |
| `NetTypes.NetworkOrder32` | components/net_stack/utility/endian.h:24-45 | a load and ntohl read, htonl and a store write, big-endian |
| `Checksum.NetChecksum` | components/net_stack/utility/checksum.c:6-31 | for up to 65535 bytes the 32-bit sum does not overflow, the fold terminates, the result is the complement of the end-around-carry sum |
| `Checksum.OnesSumIsResidue` | components/net_stack/utility/checksum.c:9-28 | adding word by word with end-around carry gives the residue of the plain sum |
| `Checksum.VerifiesIff` | components/net_stack/utility/checksum.c:22-30 | a buffer verifies exactly when its plain sum is a positive multiple of 65535 |
| `Checksum.InsertVerifies` | components/net_stack/protocols/ipv4.c:92-94 | filling a zeroed even-offset word with the checksum makes the buffer verify |
| `Checksum.DetectsIff` | components/net_stack/utility/checksum.c:6-31 | one changed word is detected exactly when the words differ modulo 65535 or nothing but zeroes is left |
| `Ipv4.BuildPacket` | components/net_stack/protocols/ipv4.c:45-97 | the packet filled through a moving pointer with its checksum patched in |
| `Ipv4.BuildAcceptRoundTrip` | components/net_stack/protocols/ipv4.c:115-178 | a built packet with any padding passes every check at its destination, reaches TCP with exactly its payload and source or ICMP whole, and is dropped elsewhere |
| `Ipv4.AcceptedIff` | components/net_stack/protocols/ipv4.c:115-178 | exactly the packets of version 4 with a five-word header, a length that fits, a verifying header, this destination and a known protocol are passed on, without their padding |
| `Ipv4.PacketConstants` | components/net_stack/protocols/ipv4.c:54-87 | the service, identification, fragment and hop bytes of every packet |
| `Ipv4.HeaderVerifies` | components/net_stack/protocols/ipv4.c:92-94 | the built header verifies |
| `Ipv4.HeaderCorruptionIff` | components/net_stack/protocols/ipv4.c:139-143 | a built packet with one header word changed is dropped at its destination exactly unless 0x0000 and 0xFFFF were exchanged outside the destination address |
| `Ipv4Task.Transmitter.constructor` | components/net_stack/protocols/ipv4.c:22-22 | there is no queue before initialisation |
| `Ipv4Task.Transmitter.Send` | components/net_stack/protocols/ipv4.c:31-43 | queued, or freed when there is no queue or no room |
| `Ipv4Task.Transmitter.SendOldest` | components/net_stack/protocols/ipv4.c:45-113 | the oldest job is freed on every path and its packet handed down unless memory or the MAC address is missing |
| `Ipv4Task.GivenIsQueuedOrFreed` | components/net_stack/protocols/ipv4.c:31-113 | in every run a buffer given is queued or freed as often as given; once the queue drains each was freed exactly once per call |
| `Ipv4Task.TransmitsInOrder` | components/net_stack/protocols/ipv4.c:180-190 | the queue is the tail of what was accepted and the frames are the packets before it, in order, less the failed ones |
| `Ipv4Task.EveryFrameConveys` | components/net_stack/protocols/ipv4.c:99-112 | in every run the frames are as many as the turns that reached Ethernet, each for the MAC address its turn found, with a packet that its destination alone accepts and that carries the accepted job's source, protocol and data |
| `Icmp.BuildReply` | components/net_stack/protocols/icmpv4.c:34-48 | the echo reply filled in place with its checksum patched in |
| `Icmp.SendPingReply` | components/net_stack/protocols/icmpv4.c:30-58 | what is handed to IPv4, or nothing without memory |
| `Icmp.NeverOverreads` | components/net_stack/protocols/icmpv4.c:79-81 | on anything ipv4_input lets through the payload length neither underflows nor passes the packet |
| `Icmp.EchoIsAnswered` | components/net_stack/protocols/icmpv4.c:61-92 | every accepted echo request is answered to its source with the same identifier, sequence number and data, in a reply that fits and verifies |
| `Icmp.OnlyEchoIsAnswered` | components/net_stack/protocols/icmpv4.c:61-97 | of what ipv4_input lets through only type 8 with code 0 gets a reaction |
| `Icmp.AnswerGoesBack` | components/net_stack/protocols/icmpv4.c:30-92 | the packet that answers an echo request goes from this host to its sender, is accepted there, and repeats its identifier, number and data in a verifying echo reply |
| `Icmp.PingPong` | components/net_stack/protocols/icmpv4.c:30-92 | a request built by one host, padded, answered by another and padded again brings the same identifier, sequence number and data back |

## Left out

- The Wi-Fi manager, `wifi_tx.c`, `eth.c`: transmission is an outcome that may fail.
- `udp.c`: nothing dispatches to it, and its table is a simpler version of TCP's.
- Application glue, task monitoring, ARP scanner, string formatting, initialisation and logging.
- FreeRTOS: queues are bounded sequences, the slot semaphore a counter, notifications counts per task.
- Data races between application tasks and the TCP task on the port table, and reads of the ARP cache from other tasks: steps are atomic.
- Receive window and congestion control: `other_window` is stored and never read by the code.
- Liveness of delivery and a completed active close: the code sends FIN without ACK and discards such a segment, so neither holds.
- Semaphore creation failing when a port is created, and `NULL` callbacks: creation succeeds and callbacks are installed.
- The input and command queues of the TCP task: an event is one item handled, and a full queue is an item that never arrives.
- TcpHosts.TableDelivery: runs in which an application sends on a row in LISTEN are set aside (`Orderly`), because what such a row later accepts does not start as a fresh connection.
- TcpDeadlock.WaitsForever: the wait is stated on the table before the call; what the code has already written when it starts to wait changes neither the full queue nor the exhausted slots.
- TcpTask.Task.InputInternal: speaks of the call when the enqueues it makes without a timeout have room; a call that waits is not a step.
- TcpWire.SegmentRoundTrip: the code reads no checksum on input and does not check that a datagram is as long as its header says; such datagrams are `Overread` and outside the model.
- Ipv4.BuildAcceptRoundTrip: an arriving TCP packet whose total length is below 20 makes the code copy beyond the packet; it is `Overrun` and outside the model.
- Ipv4.BuildPacket: data longer than 65515 bytes, where the 16-bit packet length wraps, is outside the model.
- ArpPacket.Exchange: packets shorter than 28 bytes are outside the model, because `arp_input` never looks at the length it is given.
- ArpResolver.PendingTable: the timeout is taken as 1000 ticks of a millisecond; the proof needs only that it is positive, and ticks do not wrap.
- The datagram buffer `tcp_send_internal` leaks when the port is not found or the slots are full is not tracked; only application payloads are.
