# RouteHarbor in Dafny

RouteHarbor turns a router into a gateway that sends LAN traffic through chosen
sources and keeps connections alive while it moves between them.  This project
models the parts whose correctness is hardest to see from the code, and proves
what they promise for every input, every run and every point of failure.

- **Session continuity** (`internal/continuity`).  `StreamFlow` holds the
  reactions of one logical stream, `StreamObject` the same as an object updated
  in place, `StreamLaws` what each reaction means for the fields, `StreamSystem`
  two ends over a network that may lose, repeat, reorder and re-route every frame,
  `StreamProofs` the theorems over all its runs, `StreamProgress` that no run gets
  stuck and `StreamWitness` the runs that end badly with the exact conditions under
  which they do.  `DatagramWindow` is the duplicate filter on 64-bit `Words`, `Wire` the
  frame codec and its partial reads and writes, `Session` the resource profiles,
  the agreement on a flow window and the bytes of every message of a run.
  `PeerBudget` and `PeerObject` are the byte budgets with shared,
  reference-counted segments; `Sums` adds up maps and `Arithmetic` divides.
- **Dataplane** (`internal/dataplane`).  `Addresses` has prefixes and addresses as
  numbers, `Intent` says which intents are sound, `Compiler` is the compiler that
  accepts exactly those, `Packets` evaluates nftables rules on a packet,
  `MarkWords` ties its marks to the 32-bit masks, `Tables` renders the tables.
  `DataplaneProofs`, `PathProofs` and `SelectiveProofs` say what the tables do to
  packets hook by hook, `JourneyProofs` what happens on the whole way through the
  router and which destinations that covers, `ReachProofs` what is left alone.
- **Durable transactions.**  The privileged helper (`internal/helper`) is a machine
  in `HelperRun` (over the journal of `HelperState`): one step is a call, a save,
  one effect on the network, or a crash, with the guards of the code and nothing
  else.  `HelperProofs` proves by induction what holds in every run, and
  `HelperObject` is the code itself, each of whose saves and effects is shown to
  be a step of the machine.  `GatewayRun`, `GatewayProofs` and `GatewayObject` do
  the same for the gateway's wireless transaction (`internal/coverage`).
- **Bounded resources.**  `OpJournal` is the operation journal with its reserved
  completion space (`internal/control`), `Slots` the routing-slot allocator
  (`internal/adapter`).

Conventions.  A locked region of the source is one step or one method.  Calls
into the kernel, the disk, sockets and clocks are nondeterministic choices or
parameters; a save that fails may or may not have replaced the file, because the
directory is synchronised after the rename.  Random identities are parameters
assumed fresh.  Integers are unbounded and offsets are kept below 2^64; the one
place where the source wraps, the receive window, is computed modulo 2^64.

Findings that go against a plain reading of the source, each with an input and
its exact condition:

- A local prefix is accepted when its base address is private, however large it
  is: `WidePrefixAccepted`, and `WidePrefixEscapes` sends a LAN packet to 11.0.0.1
  past every rule.  `ReachExact` and `CoversExactly`: protection covers every
  outside address if and only if each prefix is at least as long as the block of
  its base.
- A clean close at one end does not mean that the peer's socket ever gets
  everything: in `CleanCloseFallsShort` a CLOSE for a forgotten flow throws away
  what the peer had accepted, in `BrokenWriteFallsShort` a failed write does.
  `CleanCloseReachesExactly` says when the socket got everything, for whatever way
  the peer ended, and `ClosedStays` that the rest is lost for good.
- The sender's window can fall when an old acknowledgement arrives late:
  `WindowFalls`, and `WindowFallsExactly` for which acknowledgements.
- Near the end of the 64-bit offset space the granted window wraps and the sender
  closes its own flow: `WrappedWindowCloses`; `AckVerdict` has the condition.
- DATA that overtakes OPENED closes a correct gateway flow:
  `DataOvertakesOpened`, exactly under the condition of `OvertakenExactly`.
- A resource profile may be accepted although no stream fits its pools:
  `NoStreamFits`; `NormalizedBudgets` has the condition.
- In selective mode external traffic that is neither TCP nor UDP keeps the direct
  way: `OtherProtocolsGoDirect` for a packet to 8.8.8.8; `ExternalDispatch` has the
  condition.

## Model

| member | source | states |
|---|---|---|
| `DatagramWindow.Window.Contains` | internal/continuity/peer.go:78-86 | answers exactly for zero, numbers 4096 or more below the highest, and numbers added |
| `DatagramWindow.Window.Slide` | internal/continuity/peer.go:88-99 | moving the window forgets no number still inside it and invents none, also across a jump beyond its width |
| `DatagramWindow.Window.Add` | internal/continuity/peer.go:88-103 | a guarded add refines adding to a set, for both a small and a large jump |
| `DatagramWindow.NoAlias` | internal/continuity/peer.go:73-103 | two numbers inside one window never share a bit |
| `Words.OtherSet` | internal/continuity/peer.go:102-102 | setting one column of a 64-bit word leaves every column apart from it as it was |
| `Words.OtherCleared` | internal/continuity/peer.go:94-94 | and so does clearing one |
| `Words.ShiftsAreColumns` | internal/continuity/peer.go:85-102 | the shifts of one by 0 to 63 are 64 non-empty masks that share no bit |
| `DatagramWindow.Window.SetMark` | internal/continuity/peer.go:102-102 | the or with a shift marks that number and no other within 4096 of it |
| `DatagramWindow.Window.ClearMark` | internal/continuity/peer.go:94-94 | the and-not with a shift unmarks that number and no other within 4096 of it |
| `DatagramWindow.ContainsIsPermanent` | internal/continuity/peer.go:73-103 | what is contained stays contained after any arrivals and is never accepted again |
| `DatagramWindow.AcceptedAtMostOnce` | internal/continuity/peer.go:901-917 | over any sequence of arrivals no number is accepted twice |
| `DatagramWindow.FreshAccepted` | internal/continuity/peer.go:901-917 | numbers that differ and lie within 4096 of each other are all accepted, in whatever order they come |
| `Wire.DecodeEncode` | internal/continuity/wire.go:42-97 | decoding an encoded valid frame gives it back and leaves what follows |
| `Wire.EncodeDecode` | internal/continuity/wire.go:74-97 | any bytes the decoder accepts re-encode to themselves, and the frame is valid |
| `Wire.PrefixIsTruncated` | internal/continuity/wire.go:74-97 | a cut-off frame is reported as truncated, never as another frame or error |
| `Wire.PutDigits` | internal/continuity/wire.go:46-50 | integers are written big endian, digit by digit |
| `Wire.DecodeEncodeAll` | internal/continuity/wire.go:42-97 | a concatenation of valid frames, followed by a cut-off one, decodes to the list |
| `Wire.Conn.WriteAll` | internal/continuity/wire.go:58-72 | however writes are split, all bytes go out in order, or a prefix and an error |
| `Wire.Conn.WriteFrame` | internal/continuity/wire.go:42-56 | appends exactly the encoding, a prefix of it on failure, nothing for an oversized frame |
| `Wire.Conn.ReadFrame` | internal/continuity/wire.go:74-97 | however reads are split, the result is the decoder's on the incoming bytes |
| `StreamFlow.StoreSound` | internal/continuity/peer.go:846-858 | storing an admitted segment and draining keeps the out-of-order store disjoint, ahead of the next byte and exactly charged |
| `StreamFlow.DataKeepsSound` | internal/continuity/peer.go:809-859 | every DATA reaction keeps that invariant, whatever the frame |
| `StreamFlow.ConflictIsNoDuplicate` | internal/continuity/peer.go:832-840 | the verdict of the overlap loop does not depend on the order in which the map is visited |
| `StreamFlow.ConsumeKeepsSound` | internal/continuity/peer.go:1146-1149 | handing a segment over keeps the store sound and charged |
| `StreamFlow.CreditIsHonoured` | internal/continuity/peer.go:638-649 | an in-order segment within the window just granted passes every admission check, unless the window wrapped |
| `StreamLaws.DataMeans` | internal/continuity/peer.go:809-859 | the reassembly law: which frames are errors, which are admitted, and that an admitted one adds exactly its bytes, ahead or in order, and no other changes anything |
| `StreamLaws.DrainMeans` | internal/continuity/peer.go:849-857 | the drain makes ready exactly the run of held segments that continues the stream, up to the first offset not held, and keeps the rest |
| `StreamLaws.AckMeans` | internal/continuity/peer.go:860-880 | which acknowledgements are refused, and what exactly an accepted one leaves retained |
| `StreamLaws.CreditIsExact` | internal/continuity/peer.go:638-649 | an in-order segment is taken in if and only if it ends within the window just granted |
| `StreamObject.LogicalFlow.Scan` | internal/continuity/peer.go:832-840 | the loop over the store finds a duplicate or a conflict exactly when there is one |
| `StreamObject.LogicalFlow.HandleData` | internal/continuity/peer.go:809-859 | an error ends the flow exactly for malformed, late or overlapping frames; an admitted frame adds exactly its bytes, held at its offset when ahead, else drained with the run of held segments it completes up to the first byte missing; any other frame changes nothing; says when it acknowledges |
| `StreamObject.LogicalFlow.Advance` | internal/continuity/peer.go:849-857 | the drain loop computes the drained store |
| `StreamObject.LogicalFlow.HandleAck` | internal/continuity/peer.go:860-880 | refused exactly beyond what was sent or with too much credit; else its window counts, the acknowledged offset never falls, and exactly the segments it newly covers leave, in order, and are paid back |
| `StreamObject.LogicalFlow.Discard` | internal/continuity/peer.go:869-878 | the filter loop keeps exactly the segments that end after the offset and pays back the others |
| `StreamObject.LogicalFlow.HandleFin` | internal/continuity/peer.go:881-888 | refused exactly below what has arrived or when it moves an earlier finish; else the finish is known and nothing else changes |
| `StreamObject.LogicalFlow.HandleFinAck` | internal/continuity/peer.go:889-892 | counts exactly for the end of what was sent |
| `StreamObject.LogicalFlow.HandleOpened` | internal/continuity/peer.go:804-808 | opens once, at the gateway only, with the window it grants |
| `StreamObject.LogicalFlow.Credit` | internal/continuity/peer.go:638-649 | computes the granted window modulo 2^64 |
| `StreamObject.LogicalFlow.ReadQuota` | internal/continuity/peer.go:997-1015 | returns how much may be read, as much as chunk, window and budget allow, and 0 exactly when the reader must wait |
| `StreamObject.LogicalFlow.QueueRead` | internal/continuity/peer.go:1041-1075 | the bytes read follow what was queued, are retained as one segment and charged |
| `StreamObject.LogicalFlow.HandedOver` | internal/continuity/peer.go:1146-1149 | exactly the first ready segment leaves, and is paid back |
| `StreamObject.LogicalFlow.WriterIdle` | internal/continuity/peer.go:1106-1117 | the finish is applied exactly when everything up to it has come, and the flow ends exactly when both directions are done |
| `StreamProofs.StepKeepsInv` | internal/continuity/peer.go:711-939 | every enabled step of either end keeps the two-ended invariant |
| `StreamProofs.DeliveredIsPrefix` | internal/continuity/peer.go:518-541 | in every run the bytes handed to each endpoint are a prefix of the bytes read at the other |
| `StreamProofs.NoProtocolError` | internal/continuity/peer.go:809-892 | a correct pair never trips the overlap, beyond-finish or invalid-finish closes; the other two only in the stated cases |
| `StreamProofs.AckVerdict` | internal/continuity/peer.go:860-865 | an acknowledgement of a correct peer is refused if and only if its window wrapped |
| `StreamProofs.RetainedRun` | internal/continuity/peer.go:866-880 | what a sender retains is a contiguous run from no later than the acknowledged byte to the end, with the bytes read there, exactly charged |
| `StreamProofs.CleanCloseIsComplete` | internal/continuity/peer.go:1106-1117 | an end that closed through the finish handshake had every byte accepted by the peer and handed over every byte up to the peer's finish |
| `StreamProofs.CreditHonouredInRuns` | internal/continuity/peer.go:828-847 | in every run an in-order DATA frame within the current credit is admitted |
| `StreamProgress.NeverStuck` | internal/continuity/peer.go:518-541 | from any moment of any run in which both flows run and are open, some continuation hands every byte read so far to the other socket, whatever was lost or is held ahead |
| `StreamProgress.CanFinish` | internal/continuity/peer.go:1106-1117 | from any moment of any run in which both flows run and both inputs have ended, some continuation closes both ends cleanly with everything delivered |
| `StreamProgress.OwedCanBeSent` | internal/continuity/peer.go:518-550 | each retained segment within the window, the credit, the finish and the acknowledgement of the peer's may be sent at any time |
| `StreamProgress.NextHasRoom` | internal/continuity/peer.go:828-847 | what is held ahead never takes the room of the next segment |
| `StreamProofs.RelayOpensOnce` | internal/continuity/peer.go:759-792 | an OPEN for a flow the relay has made changes nothing, and any OPEN keeps the invariant |
| `StreamProofs.OpenedAtMostOnce` | internal/continuity/peer.go:778-791 | in every run a flow the relay has made is never opened again, even after it was forgotten |
| `StreamWitness.CleanCloseFallsShort` | internal/continuity/peer.go:794-800 | a run in which the gateway closed through the finish handshake, its CLOSE then closed the relay's flow, and the relay's socket has not got the one byte and never will |
| `StreamWitness.CleanCloseReachesExactly` | internal/continuity/peer.go:1106-1160 | after a clean close of one end, at any later moment and however the other end fared, the other socket has everything if and only if that end had nothing left to write when it last ran or was in a write |
| `StreamWitness.BrokenWriteFallsShort` | internal/continuity/peer.go:1124-1154 | a run in which a broken write loses the byte although nothing is left in the ready queue |
| `StreamWitness.ClosedStays` | internal/continuity/peer.go:585-620 | in every run a closed flow never changes again, no write is begun for it, and once none is under way its socket is given nothing more |
| `StreamWitness.LastActingMeans` | internal/continuity/peer.go:1095-1160 | the moment that the condition looks at is the last one at which the end ran or was in a write |
| `StreamWitness.StoppedAt` | internal/continuity/peer.go:585-620 | for an end that stops without a write in hand it is the moment just before |
| `StreamWitness.CloseInWrite` | internal/continuity/peer.go:1124-1149 | for an end that closes with a write in hand the condition is that the segment in hand is the last and the write gets all of it out |
| `StreamWitness.AlwaysAccounted` | internal/continuity/peer.go:809-859 | in every run each byte an end has taken in was given to its socket or was still to be written when it last ran or wrote |
| `StreamWitness.BothClosedCleanly` | internal/continuity/peer.go:1106-1117 | when both ends close through the handshake both sockets have everything |
| `StreamWitness.WindowFalls` | internal/continuity/peer.go:860-866 | a run in which a late acknowledgement lowers the sender's window |
| `StreamWitness.WindowFallsExactly` | internal/continuity/peer.go:860-866 | in every run an acknowledgement is refused exactly when its own window wrapped, otherwise its window is taken as it is, more or less than the last; one that is not new changes nothing else |
| `StreamWitness.WrappedWindowCloses` | internal/continuity/peer.go:638-649 | a receiver a hundred bytes short of 2^64 grants a wrapped window, and the sender closes its own flow |
| `StreamWitness.DataOvertakesOpened` | internal/continuity/peer.go:804-814 | a run in which DATA reaches the gateway before OPENED and the flow is closed with an invalid-frame error |
| `StreamWitness.ReorderedIsReassembled` | internal/continuity/peer.go:842-857 | a run in which the second segment overtakes the first, is held, and both become ready in order |
| `StreamWitness.OvertakenExactly` | internal/continuity/peer.go:809-814 | in every run DATA of the relay closes a running gateway flow in this way if and only if OPENED has not been taken |
| `Session.NormalizedStays` | internal/continuity/types.go:61-109 | normalized limits, also with a narrowed flow window, are left alone by the peer's own normalization |
| `Session.NormalizedMeans` | internal/continuity/types.go:61-109 | an empty profile gets the defaults, what is given stays, and what is accepted lies within the bounds |
| `Session.NormalizedBudgets` | internal/continuity/types.go:90-97 | under an accepted profile the datagram pools always have room for a flow and a whole chunk; the stream pools have if and only if the buffer exceeds the datagram reserve by 37248 bytes or more |
| `Session.NoStreamFits` | internal/continuity/types.go:90-97 | an accepted profile whose stream pools cannot hold one flow |
| `Session.WindowsAgree` | internal/continuity/gateway.go:158-169 | over delayed, repeated or lost hellos and welcomes, expired sessions and relay restarts, both sides of a generation use the same window and a welcome of the own generation is never refused |
| `Session.MoveKeeps` | internal/continuity/relay.go:134-183 | every hello, acceptance, expiry, welcome and restart keeps the agreement invariant |
| `Session.MessagesSurviveTheWire` | internal/continuity/wire.go:10-56 | every message ever emitted in a run is a valid frame and is read back from its bytes |
| `Session.OpenedComesFromRelay` | internal/continuity/peer.go:766-776 | in every run only the relay says that a flow is open |
| `PeerObject.Peer.constructor` | internal/continuity/peer.go:132-151 | a new peer owes nothing |
| `PeerObject.Peer.Reserve` | internal/continuity/peer.go:153-170 | succeeds exactly when the share allows it and charges exactly that pool |
| `PeerObject.Peer.Release` | internal/continuity/peer.go:172-186 | changes nothing while somebody owns or holds the segment, else pays exactly its cost back to its pool, once |
| `PeerObject.Peer.Discard` | internal/continuity/peer.go:187-187 | gives up ownership and pays back unless somebody still holds it |
| `PeerObject.Peer.NewFlow` | internal/continuity/peer.go:555-583 | made exactly when the kind's count, the total, the control budget and the pool allow; then the flow's overhead and record are charged, else nothing changes |
| `PeerObject.Peer.Serve` | internal/continuity/gateway.go:252-282 | a gateway flow gets an identity never used before, exactly when the peer is neither closed nor failed and a flow may be made |
| `PeerObject.Peer.Open` | internal/continuity/peer.go:759-792 | a relay flow is made exactly for an identity neither open nor seen before while a flow may be made; that identity is then spent |
| `PeerObject.Peer.CloseFlow` | internal/continuity/peer.go:585-620 | gives up everything a flow owns; shared segments stay charged until let go |
| `PeerObject.Peer.AddCarrier` | internal/continuity/peer.go:231-276 | a carrier is taken exactly when the peer runs, fewer than two other paths are in use and the control budget allows; the lane it replaces is closed |
| `PeerObject.Peer.CloseCarrier` | internal/continuity/peer.go:278-285 | closing charges nothing back: the writer does when it leaves |
| `PeerObject.Peer.EnqueueControl` | internal/continuity/peer.go:287-313 | a control frame is queued exactly on an open carrier with room in queue and budget, and charged its overhead and payload |
| `PeerObject.Peer.EnqueueData` | internal/continuity/peer.go:287-313 | a data frame is queued exactly on an open carrier with room; it is charged its overhead and pins its segment |
| `PeerObject.Peer.Take` | internal/continuity/peer.go:340-362 | moving a frame to the writer's hand keeps it charged and its segment pinned |
| `PeerObject.Peer.ReleaseQueued` | internal/continuity/peer.go:315-321 | a written frame is paid back, and its segment too when it was the last holder |
| `PeerObject.Peer.WriterExit` | internal/continuity/peer.go:323-339 | the leaving writer's loop pays back every queued frame and the carrier |
| `PeerObject.Peer.StartRead` | internal/continuity/peer.go:1015-1023 | a read starts exactly when the send pool can take its whole size, which is then charged |
| `PeerObject.Peer.Charge` | internal/continuity/peer.go:842-848 | a segment is charged and listed with its flow exactly when its pool has room, else nothing changes |
| `PeerObject.Peer.MoveReady` | internal/continuity/peer.go:849-857 | a segment that continues the stream moves from the out-of-order map to the ready queue and stays charged once |
| `PeerObject.Peer.FinishRead` | internal/continuity/peer.go:1034-1064 | a finished read is charged for what it returned, as a retained segment, or not at all |
| `PeerObject.Peer.Forget` | internal/continuity/peer.go:866-878 | acknowledged or expired segments leave the list and are paid back when nobody holds them |
| `PeerObject.Peer.TakeReady` | internal/continuity/peer.go:1124-1126 | the endpoint writer holds the first ready segment |
| `PeerObject.Peer.FinishWrite` | internal/continuity/peer.go:1139-1149 | the holder lets go, also when the flow was closed meanwhile |
| `PeerObject.Peer.EndClosing` | internal/continuity/peer.go:732-738 | a closing record is paid back once |
| `PeerObject.Peer.LoseGeneration` | internal/continuity/gateway.go:136-151 | a relay that lost the session closes every flow and carrier of the gateway, keeps the budgets balanced, and nothing new is taken on |
| `PeerObject.Peer.Shut` | internal/continuity/peer.go:1162-1183 | closing a peer closes every carrier and flow and pays back every closing record |
| `PeerObject.QuietPeerOwesNothing` | internal/continuity/peer.go:1162-1183 | once a closed peer's workers are done all pools and the control budget are zero |
| `PeerObject.BudgetsHold` | internal/continuity/peer.go:153-187 | in every valid state each pool is between zero and its share, the four fit the buffer and control fits its limit |
| `MarkWords.ReadsAreMasks` | internal/dataplane/plan.go:69-75 | every mark match of the evaluator is the tables' mask on the 32-bit word: owner, namespace and engine bits |
| `MarkWords.WritesAreMasks` | internal/dataplane/plan.go:69-75 | every mark the evaluator writes is the word the tables write: the lower half kept, the engine bit set |
| `Packets.RunConcat` | internal/dataplane/plan.go:348-563 | evaluating two rule lists one after the other is evaluating their concatenation |
| `Intent.RollbackAccepted` | internal/dataplane/plan.go:566-578 | the rollback chosen for an accepted candidate is itself accepted |
| `Intent.RollbackMeans` | internal/dataplane/plan.go:566-578 | after a strict candidate, or without a previous intent, the rollback routes and selects nothing, blocks DNS and is closed; after any other it is the previous intent; under a maintenance hold nothing is selected or direct |
| `Intent.HeldRollbackAccepted` | internal/helper/manager.go:364-374 | so is the one chosen under a maintenance hold |
| `Intent.DeselectedAccepted` | internal/helper/manager.go:371-372 | deselecting keeps an intent acceptable with any kind of routing |
| `Addresses.ReachExact` | internal/dataplane/plan.go:132-140 | an accepted local prefix reaches only private and link-local addresses if and only if it is at least as long as the block of its base |
| `Addresses.WidePrefixAccepted` | internal/dataplane/plan.go:132-140 | 10.0.0.0/7 is accepted and holds 11.0.0.1 |
| `Addresses.PublicIsOutside` | internal/platform/public.go:6-51 | no public address is private or link-local, also when written in mapped form |
| `Compiler.CheckLan` | internal/dataplane/plan.go:102-111 | the seen-set loop accepts exactly distinct, valid LAN devices apart from WAN and loopback |
| `Compiler.CheckNetwork` | internal/dataplane/plan.go:93-140 | accepts exactly the sound networks, prefixes and resolver judged by their addresses |
| `Compiler.CheckUnavailable` | internal/dataplane/plan.go:148-160 | accepts exactly distinct valid identities that are not selected |
| `Compiler.CheckPath` | internal/dataplane/plan.go:169-236 | one turn accepts a path exactly when it is sound and shares no slot, identity or listener with those before |
| `Compiler.CheckPaths` | internal/dataplane/plan.go:141-279 | the loop accepts exactly the sound path lists and collects exactly their routes |
| `Compiler.CheckContinuity` | internal/dataplane/continuity.go:21-70 | accepts exactly the sound continuity intents: an enabled relay with a public address, a port and a pin, the closed policy, and a stable path that collides with no source |
| `Compiler.CheckDispatcher` | internal/dataplane/selective.go:97-119 | accepts exactly dispatchers that collide with no path |
| `Compiler.CheckSelective` | internal/dataplane/selective.go:66-119 | accepts exactly the sound selective intents, fixed pools, digests and overlap with local prefixes included |
| `Compiler.Compile` | internal/dataplane/plan.go:81-324 | gives a plan exactly for the accepted intents, with the live table, the guard table and routes that fit their paths and share neither priority nor, outside the main table, a table |
| `Compiler.AcceptedMeans` | internal/dataplane/plan.go:93-279 | what acceptance promises: identities, slots and listeners of one path only, tunnels that are none of the router's devices, nothing a kind has no use for, a selection that is prepared, no direct fallback without one, and LAN devices apart from WAN and loopback |
| `Compiler.AcceptedRelay` | internal/dataplane/continuity.go:21-70 | of continuity: an enabled, public and pinned relay, a closed policy, and a stable endpoint apart from every source |
| `Compiler.AcceptedDispatcher` | internal/dataplane/selective.go:35-119 | of selective routing: no declared prefix holds a synthetic address, the dispatcher shares neither slot nor listener, and its content is verified |
| `Compiler.RouteIsOwn` | internal/dataplane/plan.go:237-275 | traffic marked for a path is routed by that path's own route in each family let through, and by no other |
| `Compiler.RoutesMean` | internal/dataplane/plan.go:237-275 | the routes: one for each path and family let through, with that path's mark, table, priority and device as the source numbers them, and none shared between paths |
| `Tables.Render` | internal/dataplane/plan.go:348-563 | the loops over the paths write the live or the guard table |
| `Tables.RenderSelective` | internal/dataplane/selective.go:146-252 | the loop over the paths writes the selective live table |
| `PathProofs.NoEscape` | internal/dataplane/plan.go:348-563 | an external LAN packet without our mark is dropped or handed to the prepared path whose slot is in its connection mark |
| `PathProofs.HandedToOne` | internal/dataplane/plan.go:169-181 | that path is unique |
| `DataplaneProofs.NoForwardEscape` | internal/dataplane/plan.go:523-549 | the forward chain lets a LAN packet out if and only if its own path does, by a tunnel only through its device |
| `DataplaneProofs.GuardDropsAll` | internal/dataplane/plan.go:396-480 | under the guard table every external LAN packet is dropped |
| `DataplaneProofs.SwitchEqualsRender` | internal/dataplane/selection.go:12-49 | the incremental selection script gives the table a full render would give |
| `DataplaneProofs.LiveIsSticky` | internal/dataplane/selection.go:31-49 | only the classifier touches connection marks, and only of connections nobody owns |
| `DataplaneProofs.SwitchKeepsFlows` | internal/dataplane/selection.go:12-49 | packets of owned connections meet the same fate at every hook before and after a switch, and keep their owner |
| `PathProofs.OwnedVerdict` | internal/dataplane/plan.go:468-513 | the exact fate of an ordinary external packet of a path's connection: that path has it, marked, or it is lost because the path cannot carry it or IPv6 is blocked |
| `PathProofs.UnownedVerdict` | internal/dataplane/plan.go:512-513 | a packet no prepared path owns, even after classification, is lost |
| `PathProofs.SelectionRulesNewFlows` | internal/dataplane/selection.go:31-49 | new connections go to the selected path, owned ones stay, and without a selection nobody gets them |
| `PathProofs.BlockedDnsIsLost` | internal/dataplane/plan.go:407-413 | with DNS blocked, LAN DNS to any destination is lost unless a direct path owns it |
| `PathProofs.SelectedDnsVerdict` | internal/dataplane/plan.go:373-467 | the exact fate of a LAN DNS query when DNS follows the selected path; none keeps its destination |
| `PathProofs.QueueIsOwn` | internal/dataplane/plan.go:550-561 | an engine's traffic goes to its own queue, all other traffic leaves as it is |
| `PathProofs.UnownedDnsIsLost` | internal/dataplane/plan.go:414-467 | a LAN DNS query that no prepared path owns is lost when DNS follows the selected path |
| `JourneyProofs.OwnWay` | internal/dataplane/plan.go:237-275 | the rule for a path's mark names a table, and that table the path's own device, loopback for a listener; direct and engine paths use the main table |
| `JourneyProofs.OwnForward` | internal/dataplane/plan.go:523-549 | in the forward hook only the owner of the connection decides, whatever other paths there are |
| `JourneyProofs.NoEscapeAnywhere` | internal/dataplane/plan.go:348-563 | from prerouting through routing and forwarding to the queues an external LAN packet is lost or leaves on the one path that owns it: its listener, its queue, its device |
| `JourneyProofs.CoversExactly` | internal/dataplane/plan.go:132-140 | every outside address is external, and so covered, if and only if every declared prefix is at least as long as the block of its base |
| `JourneyProofs.LocalPasses` | internal/dataplane/plan.go:468-549 | a LAN packet to a declared prefix passes prerouting and forwarding untouched |
| `JourneyProofs.WidePrefixEscapes` | internal/dataplane/plan.go:132-140 | under an accepted intent with 10.0.0.0/7 a LAN packet to 11.0.0.1 leaves unowned |
| `JourneyProofs.FullIntentAccepted` | internal/dataplane/plan.go:93-279 | an intent with a path of every kind, DNS on the selected path and a direct fallback is accepted |
| `JourneyProofs.UndispatchedPasses` | internal/dataplane/selective.go:187-250 | under any accepted selective intent external LAN traffic that is neither TCP nor UDP passes prerouting and forwarding untouched, unless it is blocked IPv6 |
| `JourneyProofs.OtherProtocolsGoDirect` | internal/dataplane/selective.go:187-250 | under an accepted selective intent such a packet to 8.8.8.8 leaves unowned |
| `ReachProofs.ExemptPasses` | internal/dataplane/plan.go:396-480 | the router, link-local multicast and discovery, and declared prefixes stay reachable from the LAN, unchanged, under the live and the guard table |
| `ReachProofs.SelectiveExemptPasses` | internal/dataplane/selective.go:187-212 | so they do under selective routing |
| `ReachProofs.OutsidersUntouched` | internal/dataplane/plan.go:396-549 | what does not come from the LAN passes prerouting and forwarding untouched |
| `ReachProofs.SelectiveOutsiders` | internal/dataplane/selective.go:168-252 | so it does under selective routing, but for synthetic addresses |
| `ReachProofs.EmergencyIsDirect` | internal/dataplane/selective.go:160-172 | the emergency and guard tables of selective routing let everything but synthetic addresses pass, DNS included |
| `ReachProofs.EngineOutput` | internal/dataplane/selective.go:231-246 | the router's own traffic for an engine goes to that engine's queue once, tagged |
| `ReachProofs.OutputUntouched` | internal/dataplane/selective.go:231-246 | the router's other traffic leaves as it is |
| `SelectiveProofs.SyntheticQuarantine` | internal/dataplane/selective.go:142-279 | under the live, guard and emergency tables a packet to a synthetic address is never forwarded or sent; it is dropped or a local listener has it |
| `SelectiveProofs.DnsReachesFront` | internal/dataplane/selective.go:175-186 | DNS from the LAN reaches the local front whatever its destination |
| `SelectiveProofs.ExternalDispatch` | internal/dataplane/selective.go:187-228 | what exactly happens to every external LAN packet |
| `SelectiveProofs.DispatchedNeverForwarded` | internal/dataplane/selective.go:247-250 | the forward hook drops exactly synthetic destinations and the dispatcher's own LAN flows |
| `SelectiveProofs.TunnelNeverLeaks` | internal/dataplane/selective.go:231-246 | the router's traffic for a tunnel path leaves by its device and by no other |
| `HelperProofs.StepKeepsInv` | internal/helper/manager.go:256-622 | every call, save, effect on the network and crash keeps the journal and the running operation consistent with what is installed |
| `HelperProofs.CrashSafe` | internal/helper/manager.go:392-480 | in every run, at every step of every operation and so after a crash at any of them, the journal is readable, and what is installed is what is committed unless the durable transaction is applying, applied or rolling back, or a removal has begun under an owned guard; guard and emergency are journaled before they are up |
| `HelperRun.PrefixIsRun` | internal/helper/manager.go:601-622 | what a run has reached at any moment it has reached by a run |
| `HelperProofs.RecoveryRestores` | internal/helper/manager.go:601-622 | from any moment of any run at which a change is due, in the middle of whatever operation, a crash and one recovery without further failures end with the recorded rollback installed and committed |
| `HelperProofs.RemovalIsOwned` | internal/helper/lifecycle.go:314-364 | whenever what is installed is not what is committed and no change is in flight, a removal was cut short: its guard is owned on disk, a selective one is held, and neither a switch nor an emergency starts |
| `HelperProofs.NeverBoth` | internal/helper/manager.go:482-547 | in no run is a transaction both confirmed and rolled back |
| `HelperProofs.FateIsFinal` | internal/helper/manager.go:482-622 | in every run confirmed stays confirmed and undone stays undone |
| `HelperProofs.ConfirmKeepsAllocations` | internal/helper/manager.go:279-328 | when the committed intent changes, everything was removed, a recorded rollback was completed, or no mark changes hands: over all paths, dispatcher and stable endpoint included, equal slots mean the same source, kind, device and listeners, and a source other than the dispatcher keeps its slot |
| `HelperState.CompatibleMeans` | internal/helper/manager.go:279-329 | the pairwise check accepts exactly when no mark changes hands, the LAN order stays and two dispatchers use different pools |
| `HelperProofs.RollbackIsSafe` | internal/helper/manager.go:355-374 | in every run the rollback of an active transaction is the one the rule gives, and shut for a strict candidate |
| `HelperProofs.StrictUndoneIsShut` | internal/helper/manager.go:549-599 | whenever in a run a strict change is undone, what becomes committed and installed lets nothing out, whatever was committed before |
| `HelperProofs.StrictNeverReopens` | internal/helper/manager.go:601-622 | after a crash and the recovery of a strict change no direct fallback and no emergency is installed |
| `HelperProofs.SelectionCompatible` | internal/helper/selection_manager.go:48-62 | changing only the selection moves no allocation |
| `HelperProofs.PrepareSaved` | internal/helper/manager.go:355-387 | the journal of a prepared transaction passes its own next read |
| `HelperProofs.ConfirmSaved` | internal/helper/manager.go:504-513 | so does that of a confirmed one, and the network is then settled |
| `HelperProofs.RolledSaved` | internal/helper/manager.go:589-598 | so does that of a completed rollback |
| `HelperProofs.SwitchConfirmed` | internal/helper/selection_manager.go:112-118 | so does that of a confirmed switch, with the overlays as they were |
| `HelperProofs.RemovedSaved` | internal/helper/lifecycle.go:347-363 | so does the empty journal of a finished removal |
| `HelperObject.Helper.Restarted` | internal/helper/manager.go:601-622 | a helper started on the disk and the network of any moment of any run is valid, and its run goes on from there |
| `HelperObject.Helper.Save` | internal/helper/manager.go:201-239 | after a save, failed or not, the disk holds the old or the new state, and the object has made one step of the machine |
| `HelperObject.Helper.CheckAllocations` | internal/helper/manager.go:312-328 | the nested loops accept exactly when no pair conflicts, and never when a slot would change its source |
| `HelperObject.Helper.CheckCompatible` | internal/helper/manager.go:279-329 | accepts exactly when no mark would change hands; a committed slot offered to another source is refused |
| `HelperObject.Helper.Prepare` | internal/helper/manager.go:256-390 | refuses under maintenance, when busy or when a mark would change hands; otherwise journals exactly the candidate, what is committed, whether an emergency is in force and the rollback the rule gives, and nothing else |
| `HelperObject.Helper.FinishReset` | internal/helper/conntrack.go:149-177 | a flow reset changes only its own mark in the journal |
| `HelperObject.Helper.Apply` | internal/helper/manager.go:392-480 | on success exactly the candidate is installed and waits for its deadline, with the marks of guard and emergency gone; a failed installation is rolled back or known to be pending |
| `HelperObject.Helper.RollbackLocked` | internal/helper/manager.go:549-599 | on success the recorded rollback is committed and is what is installed |
| `HelperObject.Helper.Rollback` | internal/helper/manager.go:523-547 | undoes what is in flight, drops what is only prepared, refuses what is confirmed |
| `HelperObject.Helper.Recover` | internal/helper/manager.go:603-622 | a due change whose recovery succeeds ends with the recorded rollback installed and committed; a change that is not due is left alone and not reported done |
| `HelperObject.Helper.Confirm` | internal/helper/manager.go:482-521 | what is installed becomes committed, in time only; the hold ends, no mark has changed hands, and old connections are ended exactly when the change asks for it |
| `HelperObject.Helper.EmergencyLocked` | internal/helper/selective_lifecycle.go:89-139 | the authorization is saved before and the completion after the switch to direct access |
| `HelperObject.Helper.SelectiveEmergency` | internal/helper/selective_lifecycle.go:156-180 | a request for a replaced transaction or under a hold changes nothing; otherwise success means direct access, journaled; no request changes the policy |
| `HelperObject.Helper.QuarantineLocked` | internal/helper/lifecycle.go:206-262 | the guard is owned in the journal before it is installed, and is up on success under a hold |
| `HelperObject.Helper.BootGuard` | internal/helper/lifecycle.go:202-204 | on success selective routing that nothing holds has gone direct and anything else lies behind an owned guard; neither the transaction nor what is committed changes |
| `HelperObject.Helper.AcquireMaintenance` | internal/helper/maintenance_gate.go:26-61 | on success the job owns the gate, nothing is active and what is committed lies behind the guard |
| `HelperObject.Helper.ReleaseMaintenance` | internal/helper/maintenance_gate.go:65-80 | only the owner opens the gate, and the hold stays |
| `HelperObject.Helper.PreserveClosed` | internal/helper/lifecycle.go:278-302 | on success what is committed lies behind an owned guard, with policy and transaction kept; refused for another job or a selective change under way |
| `HelperObject.Helper.RestoreDirect` | internal/helper/lifecycle.go:304-364 | on success nothing is installed or committed; a failure leaves the committed policy on disk or nothing at all; refused for another job or an active transaction |
| `HelperObject.Helper.Dismantle` | internal/helper/lifecycle.go:330-364 | the guard is owned and up before anything is removed, and the journal forgets the policy only when all of it is gone |
| `HelperObject.Helper.SwitchSelection` | internal/helper/selection_manager.go:16-123 | on success only the selection has changed, in the journal and in the network; says exactly when a full apply is needed and when it is refused |
| `HelperObject.Helper.SwitchLocked` | internal/helper/selection_manager.go:74-120 | a switch that fails halfway ends in the recorded rollback or is known to be pending |
| `GatewayProofs.StepKeepsInv` | internal/coverage/transaction.go:137-437 | every call, save, effect on the radio and crash keeps the journal consistent with the air and the old configuration |
| `GatewayProofs.AlwaysRestorable` | internal/coverage/transaction.go:51-104 | in every run, at every step, the journal passes its own read, snapshot and Wi-Fi material exist exactly in active or confirmed states, and the old configuration is in force or in the snapshot |
| `GatewayProofs.EndIsFinal` | internal/coverage/transaction.go:348-375 | what is finalized, rolled back or failed never changes again |
| `GatewayProofs.BaseIsFixed` | internal/coverage/transaction.go:164-189 | the configuration a transaction goes back to is fixed when it is prepared |
| `GatewayProofs.RecoveryRestores` | internal/coverage/transaction.go:377-397 | from any moment of any run at which a change is due, a crash and one recovery without further failures put the old configuration back and erase the material |
| `GatewayObject.Gateway.Restarted` | internal/coverage/transaction.go:377-397 | a manager started on the disk and the radio of any moment of any run is valid, and its run goes on from there |
| `GatewayObject.Gateway.Prepare` | internal/coverage/transaction.go:137-197 | the same key and request give the same transaction; a new one starts only when none holds material |
| `GatewayObject.Gateway.Apply` | internal/coverage/transaction.go:214-272 | applied with a deadline, or restored, or known to be in flight |
| `GatewayObject.Gateway.RollBack` | internal/coverage/transaction.go:325-346 | on success the old configuration is in force and no material is left |
| `GatewayObject.Gateway.Confirm` | internal/coverage/transaction.go:274-306 | confirmed only in time; a late confirmation restores |
| `GatewayObject.Gateway.Rollback` | internal/coverage/transaction.go:348-375 | even a confirmed change is undone, a finalized or failed one never |
| `GatewayObject.Gateway.Recover` | internal/coverage/transaction.go:380-397 | a due change whose recovery succeeds ends with the old configuration in force and no material; one that is not due is left alone and not reported done |
| `GatewayObject.Gateway.Finalize` | internal/coverage/transaction.go:413-437 | erases the material of a confirmed change and touches nothing else |
| `OpJournal.CompletionFits` | internal/control/operations.go:41-47 | the reserve covers whatever finishing adds to a running entry |
| `OpJournal.ResultBound` | internal/control/operations.go:187-232 | a stored result never exceeds its bound, also when it is replaced by a note with references |
| `OpJournal.InterruptedSound` | internal/control/operations.go:82-97 | interrupting everything that ran fits, keeps every key and leaves nothing running |
| `OpJournal.RecentSound` | internal/control/operations.go:115-125 | forgetting old entries keeps the invariant and drops nothing that runs |
| `OpJournal.Journal.Prune` | internal/control/operations.go:115-125 | the filter loop keeps exactly the recent or unfinished entries and counts what runs |
| `OpJournal.Journal.FindKey` | internal/control/operations.go:107-114 | the search finds a key exactly when it is there |
| `OpJournal.Journal.Begin` | internal/control/operations.go:103-145 | a known key is answered or refused without change, a full queue is refused exactly when a bound would break, otherwise one entry is recorded and stored; exactly the entries older than a day that are finished are forgotten |
| `OpJournal.Journal.Finish` | internal/control/operations.go:147-185 | a running operation is recorded as succeeded if and only if it has no error code, with that code or its replacement, the revision, the result within its bound and the time, all else as it was; never fails for space; what cannot be stored is still running |
| `OpJournal.Journal.Reopen` | internal/control/operations.go:54-99 | after a restart exactly what ran has failed as interrupted, nothing else has changed, and the save never fails for space |
| `Slots.Allocator.SearchUp` | internal/adapter/manager.go:198-201 | terminates at the lowest free slot |
| `Slots.Allocator.SearchDown` | internal/adapter/dispatcher.go:48-51 | terminates at the highest free slot, or 0 |
| `Slots.Allocator.Prepare` | internal/adapter/manager.go:164-208 | asked again, accepted exactly with the same kind and settings and nothing changes; a restored source gets its recorded slot, another the lowest free one; refused only for lack of inputs or of a slot |
| `Slots.Allocator.Stop` | internal/adapter/manager.go:568-578 | frees exactly that owner's slot |
| `Slots.Allocator.Reserve` | internal/adapter/dispatcher.go:30-104 | the recorded slot exactly or the highest free one; refused only when it is taken or none is left |
| `Slots.Allocator.ReserveContinuity` | internal/adapter/continuity.go:14-85 | asked again, accepted exactly when slot, family, DNS and ports agree, and nothing changes; a record must be one of its own and is taken as it is, so mark and queue fit the slot exactly when the record's did; no other owner's slot changes |
| `Slots.Allocator.ForgetDispatcher` | internal/adapter/dispatcher.go:116-123 | frees exactly that dispatcher's slot |
| `Slots.Allocator.CheckPlace` | internal/adapter/manager.go:1001-1051 | accepts exactly the allocations whose kind, slot, ports, device, mark, queue and capabilities fit their source |
| `Slots.Allocator.RecordOne` | internal/adapter/manager.go:1000-1057 | one turn of the loop accepts exactly a sound allocation that repeats no source, slot or port |
| `Slots.Allocator.Record` | internal/adapter/manager.go:997-1061 | accepts exactly lists of known sources, each once, with different slots and ports, where kind, ports, device, mark, queue and capabilities are as the source demands, and keeps each with its own mark and queue |
| `Slots.Allocator.Restore` | internal/adapter/manager.go:980-1084 | succeeds for every recordable list on an empty allocator whose inputs can be had and for no other list; every source then has its recorded slot, else nothing is prepared |
| `Slots.Allocator.Configure` | internal/adapter/manager.go:919-942 | unchanged settings change nothing; otherwise every path is stopped, or after a failing stop the rest is kept with the old settings |

## Left out

- Carrier choice, path scoring, round-trip estimation and retransmission timers: any retained frame may be sent on any carrier at any time, which allows more runs than the source.
- UDP flows in the two-ended stream model: a datagram needs only the duplicate filter and the budgets, which are modelled.
- TLS, certificates, dialing, listeners and goroutine scheduling: connections and workers are nondeterministic steps.
- StreamWitness.WrappedWindowCloses: is stated on one receiver and one sender, not on a run of 2^64 bytes.
- PeerObject.Peer.EnqueueData: the contents of segments are not modelled there, only their costs, owners and holders (a frame without a segment is one of `EnqueueControl`); `StreamObject` has the contents.
- PeerObject.Peer.AddCarrier: whether the path would be a third one, and which carrier the lane had before, are parameters.
- PeerObject.Peer.Open: the destination of a repeated OPEN and the reason sent with a refusal are not modelled.
- Session.WindowsAgree: session capacity, certificates and path names of the handshake are not modelled.
- Text formatting and parsing: nftables scripts are rule datatypes, and prefixes and addresses appear parsed.
- Tables.Render: the helper's insertion of router addresses is the single range `Router`.
- PathProofs.NoEscape: connection tracking is evaluated packet by packet; a translated destination is a parameter.
- JourneyProofs.NoEscapeAnywhere: the main routing table is a parameter, and a listener or queue ends the journey.
- Compiler.Compile: warnings and the order of the routes (a sort by family and table) are not modelled.
- HelperProofs.CrashSafe: what lies under the installed policy, kernel routes and rules one by one, is one value that is either whole or torn; the emergency, which in the source replaces the table and removes routes and the DNS guard, is an overlay over a policy that stays in force.
- HelperObject.Helper.Prepare: ingress binding, the DNS guard identity and the backend's own checks are one nondeterministic refusal.
- HelperObject.Helper.Save: the size limit of the journal is one more way in which a save can fail.
- GatewayProofs.AlwaysRestorable: nobody else changes the wireless configuration; it moves only by the steps of the machine.
- GatewayObject.Gateway.Prepare: what the wireless configuration contains is not modelled beyond its section and text, and the request hash is a parameter.
- OpJournal.Journal.Finish: JSON is modelled by its size; a decoded result re-encodes to the same size.
- Slots.Allocator.Prepare: listeners, engine files and probes are one parameter that says whether they could be had.
- nft, ip, uci and conntrack commands, HTTP API, CLI, web UI, engine workers, DNS inspection, sing-box and Xray configuration, probes and package maintenance: I/O and plumbing.
