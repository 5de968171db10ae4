# Unknowntunnel, verified

A Dafny model of Unknowntunnel, a tunnel that carries application messages between two nodes over an encrypted TCP
carrier, a reliable ordered UDP carrier of its own, or both with failover. The model follows the Go code and proves
what its protocol notes promise. `dafny verify dfyconfig.toml` checks everything.

What is modelled:

- **The UDP carrier** (`UdpWire`, `UdpProtocol`, `UdpInvariant`, `UdpDelivery`, `UdpTheorems`, `UdpProgress`,
  `UdpTiming`, `UdpAuthentic`, `UdpLoss`, `UdpOverRelease`, `UdpSession`). Two sessions and a network form a step
  system. `Send` is four steps (take a token, number and seal, enter the pending map, write), and two more after a
  failed write (take a token back, waiting if there is none, and close). Any datagram ever sent may be delivered at
  any time and any number of times, and bytes that do not authenticate may arrive at will. The theorems quantify over
  all runs. The session class is proved against the same functions, method by method.
- **The application over any carrier** (`OrderedFlow`, `TcpFlows`, `TcpCarries`, `TcpReopen`, `TcpWindow`,
  `DuplicateFilter`, `Fragments`, `Reassembly`, `DatagramNumbers`, `UdpFlowTable`, `Writers`). Chunk ordering, the
  open/status/data/close protocol of TCP flows between two nodes, the duplicate window, fragmentation and reassembly,
  and the table of UDP clients.
- **Session bookkeeping** (`Manager`, `UdpServer`). Registration, replacement, removal and failover; the three maps of
  the UDP server.
- **Formats and limits** (`TcpRecords`, `Message`, `Handshake`, `Tun`, `Config`, `Sizes`, `EndToEnd`). Codecs, the TCP
  record stream, the IP protocol filter, configuration checks, and the arithmetic from configuration limits to carrier
  limits.

Cipher and MAC are functions given as parameters, with only the facts the proofs need: opening undoes sealing, lengths
are fixed, and a tag or seal that verifies was made by the peer (`UnforgedIsDelivered`, `ReadsOnlySent`). Random
identifiers are fresh. Times are integers in milliseconds. How many writes or publications succeed before one fails is
a parameter of each step (`room`, `writeOk`, `ackOk`), so every failure point is covered.

Where code and notes disagree, the model follows the code. `docs/PROTOCOL.md` (lines 66-74) says that accepted packets
are acknowledged and early ones held in a bounded window. The code acknowledges before it tests the window
(`internal/transport/udp.go`, lines 197 and 220) and the sender may have 8192 packets pending against a window of
4096. `KeptExactlyInWindow` gives the exact condition, `AcknowledgedAndLost` a run that loses a payload, and
`AcknowledgedIsDelivered` says that every other number is safe. `PacedNeverOverruns` gives a condition the sender can
check.

Four more guarantees hold under a condition, and each has its exact form:

- A failed `Send` takes a token back whether or not its entry was still pending. `WriteFailureExact` says when that is
  right, and `TokenOfAnotherSend` is a run in which it takes the token of another `Send`.
- A session of the UDP server whose welcome cannot be written never leaves the table. `CleanedUpExactly` says which
  closed sessions leave, and `ServerFills` is a run that fills the table.
- An open request accepted over a closed flow starts the numbering of its chunks anew. `ReopenExact` and
  `MixingBreaks` say when that loses the prefix of that flow. `ReopenNeedsWindow` and `FilteredPrefix` say what the
  duplicate window (1,048,576 messages in the application) rules out, and `RepeatedOpenMixes` is a run behind the
  window, one message past the bound of `SmallPrefix`, in which the prefix is lost.
- A UDP flow that is removed and made anew numbers its datagrams from 1 again, so two datagrams may share a key;
  `SharedKeyExactly` says when. `ForeignPartExact` says when a fragment corrupts another datagram's assembly,
  `MixedDelivery` is a run that delivers a mixture, and `OnlyOriginals` holds under every key without such a fragment.

## Model

| member | source | states |
|---|---|---|
| `UdpWire.HeaderFields` | internal/transport/udp.go:304-313 | Every field of a 28-byte header, in front of any body, is read back from its offset as the value it was made from. |
| `UdpWire.DataPacketReads` | internal/transport/udp.go:111-114 | A sealed packet of any payload up to 1400 bytes is classified by the receiver as exactly that number and payload, and is short enough for the 2048-byte read buffer. |
| `UdpWire.AckPacketReads` | internal/transport/udp.go:206-212 | An acknowledgement is classified by the other end as the acknowledgement of that number. |
| `UdpWire.AckExactly` | internal/transport/udp.go:155-188 | A datagram is taken for the acknowledgement of a number if and only if it has 44 bytes, its first 28 are, but for the reserved fields, the header of that acknowledgement for this session, and the rest is the tag of those very 28 bytes. |
| `UdpWire.PayloadExactly` | internal/transport/udp.go:155-200 | A datagram is taken for a payload if and only if it has a data header of this session for the rest of it and that rest opens to the payload under the header and the nonce of its number. |
| `UdpAuthentic.UnforgedIsDelivered` | internal/transport/udp.go:155-200 | In every run over the real packets, if every tag and seal that verifies on a datagram was made by the peer, the datagram is junk or the peer put it on the wire, which is the rule of delivery the step system uses. |
| `UdpWire.KeyedOk` | internal/transport/udp.go:155-204 | The byte formats under any lawful keys form a codec that reads back every packet it writes, which is all the protocol proofs use of them. |
| `UdpWire.NonceInjective` | internal/transport/crypto.go:67-72 | Distinct 64-bit numbers give distinct 12-byte nonces. |
| `UdpInvariant.LocalStep` | internal/transport/udp.go:94-128 | Every step of a session (token, seal, insert, write, the take-back and close of a failed write, delivery, the release of an acknowledgement, tick, close) keeps its sender consistent: numbering and nonces in step, running sends distinct, pending packets the sealed ones, nothing else on the wire, tokens conserved unless a failed send took one that was released already, transmissions within budget. |
| `UdpDelivery.DrainOrdered` | internal/transport/udp.go:233-243 | Draining the reorder map from any state with true payloads ends with the next number absent, keeps the published payloads a prefix of the sent ones, and drops nothing unless it closes. |
| `UdpDelivery.AcceptOrdered` | internal/transport/udp.go:214-245 | Accepting the true payload of any number keeps publication in order, and while the session stays open the number is kept if and only if it is at most 4096 ahead. |
| `UdpDelivery.AcceptExact` | internal/transport/udp.go:214-245 | An open session publishes exactly the due payload and the ones held behind it, and closes if and only if there is no room for all of them; with room for one more than it holds it stays open. |
| `UdpDelivery.HeldBounded` | internal/transport/udp.go:220-227 | At most 4096 payloads are held. |
| `UdpDelivery.FromWire` | internal/transport/udp.go:155-204 | Whatever authentic datagram arrives is one of the peer's payloads under its own number or an acknowledgement the peer really sent. |
| `UdpDelivery.ReceiverStep` | internal/transport/udp.go:189-245 | No step of either kind disturbs what a session has received from its peer. |
| `UdpDelivery.SenderStep` | internal/transport/udp.go:94-128 | No step of an open sender loses a number: each is pending, in the hands of its running Send, published or held at the open peer, or was acknowledged there beyond the window. |
| `UdpDelivery.StepKeeps` | internal/transport/udp.go:94-291 | Every step of either end keeps the two-ended invariant. |
| `UdpDelivery.RunKeeps` | internal/transport/udp.go:94-291 | Every state reachable through any interleaving, over a network that loses, repeats, delays and reorders, satisfies the invariant. |
| `UdpTheorems.KeyedLink` | internal/transport/udp.go:304-313 | The real packets of a session under two lawful key directions are an instance of the link the theorems quantify over. |
| `UdpTheorems.Mirrored` | internal/transport/udp.go:59-87 | Both ends are the same kind of session: exchanging them turns every run into a run with exchanged states, so what is proved of one end holds of the other. |
| `UdpTheorems.InOrderExactlyOnce` | internal/transport/udp.go:189-245 | In every run, both ways: published is exactly the peer's payloads 1..expected-1 in order, once each, and every held number lies in (expected, expected+4096] with its true payload. |
| `UdpTheorems.AcknowledgedIsDelivered` | internal/transport/udp.go:116-200 | While both ends are open, every number that left the pending map, that no Send still has in hand and that was not acknowledged more than 4096 ahead, is published or held; with nothing pending or in hand, and whatever was acknowledged beyond the window kept later, published equals sent. |
| `UdpTheorems.PacedNeverOverruns` | internal/transport/udp.go:103-127 | A sender that in no state of the run has numbered more than 4096 past a number still pending or in hand never makes its peer acknowledge a number beyond the window, while both ends are open. |
| `UdpTheorems.PacedIsDelivered` | internal/transport/udp.go:94-245 | So for such a sender an empty pending map, both ends open, means that everything it numbered was published. |
| `UdpProgress.ClosesExactly` | internal/transport/udp.go:141-291 | An open receiver is closed by exactly these steps: an acknowledgement that cannot be written, a payload that unblocks more than there is room for, a tick that finds a spent entry, the end of a failed Send, and a close from outside. |
| `UdpProgress.StaysOpenExactly` | internal/transport/udp.go:141-291 | In every run a receiver is open at the end if and only if no step was one of those. |
| `UdpProgress.EverythingPublished` | internal/transport/udp.go:189-245 | In every run without such a step, a receiver that got every number up to m inside its window, in any order and with any repetition, has published the first m payloads, and all of them if m were sent. |
| `UdpTheorems.KeptExactlyInWindow` | internal/transport/udp.go:189-222 | A delivered payload is always acknowledged, and it is kept if and only if its number is at most 4096 ahead of the expected one. |
| `UdpLoss.AcknowledgedAndLost` | internal/transport/udp.go:197-222 | A concrete run, both ends open, no Send under way and no token owed, in which number 4098 is acknowledged and leaves the pending map although the receiver neither published nor holds it. |
| `UdpTheorems.SlotsConserved` | internal/transport/udp.go:103-187 | In every run of fewer than 2^64 sends, until a failed send takes back a token that was released already: tokens equal pending entries plus the sends and the acknowledgement that still account for one, at most 8192 are pending, and an acknowledgement finds its token. In an open session with no such send about to close it, that has not happened. |
| `UdpTheorems.WriteFailureExact` | internal/transport/udp.go:118-125 | Deleting the entry of a failed write keeps tokens conserved, and taking a token back keeps them conserved if and only if the entry was still pending, whether the token is there at once or comes from the next Send. |
| `UdpOverRelease.TokenOfAnotherSend` | internal/transport/udp.go:118-125 | A concrete run in which a failed Send whose packet was acknowledged waits for a token and takes that of the next Send, in a session still open. |
| `UdpTheorems.TransmissionsBounded` | internal/transport/udp.go:260-291 | In every run of fewer than 2^64 sends each packet is transmitted at most 19 times, and everything ever on the wire is byte for byte the packet first sealed under its number, or an acknowledgement. |
| `UdpTiming.RetransmissionsSpaced` | internal/transport/udp.go:260-291 | In every run, the times at which a packet was entered and retransmitted are at least 350 ms apart. |
| `UdpTiming.TickExact` | internal/transport/udp.go:260-291 | In every run, a tick closes the session if and only if some pending packet was counted 18 times and last at least 350 ms ago; otherwise it retransmits exactly the pending packets entered or last retransmitted at least 350 ms ago. |
| `UdpTheorems.NoncesDistinct` | internal/transport/udp.go:111-114 | In every run of fewer than 2^64 sends no two seals of a session use the same nonce. |
| `UdpTheorems.UnacknowledgedCloses` | internal/transport/udp.go:260-291 | From any reachable state: an entry that stays pending while ticks find it due more often than it has retries left closes the session, whatever happens in between; for a fresh entry that is 19 ticks. |
| `UdpTheorems.TickSpends` | internal/transport/udp.go:269-281 | The remaining retries, summed over the pending map, fall by exactly the number of entries a tick retransmits. |
| `UdpTheorems.QuietEnds` | internal/transport/udp.go:260-291 | While no packet is entered and the session stays open, the ticks that find something due never exceed that sum. |
| `UdpSessions.SendIsItsSteps` | internal/transport/udp.go:94-128 | An uninterrupted Send is its steps of the step system, four when the write succeeds and six when it fails. |
| `UdpSessions.UdpSession.constructor` | internal/transport/udp.go:59-87 | A new session is the fresh state the runs start from. |
| `UdpSessions.UdpSession.Send` | internal/transport/udp.go:94-128 | Refused without effect when closed, too long or out of tokens; otherwise the new state and the packet written are those of its steps. |
| `UdpSessions.UdpSession.AcceptOrdered` | internal/transport/udp.go:214-245 | The loop computes the accept function of the step system, of which AcceptExact says what is published and when it fails, for any number of publications that succeed before one fails. |
| `UdpSessions.UdpSession.HandlePacket` | internal/transport/udp.go:155-204 | Any datagram has the effect of the receive function on its classification, which AckExactly and PayloadExactly pin down, and the token of an acknowledged entry is taken if there is one; an acknowledgement is written for exactly the authentic payloads. |
| `UdpSessions.UdpSession.CollectDue` | internal/transport/udp.go:266-281 | Whatever the map order, the pass counts each due entry at most once with the time of the tick, collects its stored packet, and closes exactly when some due entry has no retry left. |
| `UdpSessions.UdpSession.RetransmitTick` | internal/transport/udp.go:260-291 | A tick is a tick step of the step system, its writes a repetition-free part of the counted entries in order, followed by closing when a write fails. |
| `UdpServer.RegisterExact` | internal/transport/udp.go:441-445 | Registering any identifier, even one in use, keeps the three maps in agreement if and only if no other remote has it as its confirmed session. |
| `UdpServer.StepKeeps` | internal/transport/udp.go:396-485 | Every step of the read loop and of the goroutines of any session keeps agreement, capacity and each goroutine's claim on its own entry. |
| `UdpServer.RunKeeps` | internal/transport/udp.go:396-485 | The same over every run. |
| `UdpServer.AlwaysAgree` | internal/transport/udp.go:351-485 | In every reachable state with fresh identifiers, sessions and remotes have the same keys, every confirmed session is registered for that remote, and at most 64 sessions exist. |
| `UdpServer.SupersededAreClosed` | internal/transport/udp.go:451-482 | In every run a session that was ever confirmed is still its remote's own or is closed. |
| `UdpServer.CleanedUpExactly` | internal/transport/udp.go:447-462 | In every run, a closed session that is registered can be cleaned up if and only if its welcome was written. |
| `UdpServer.UnwelcomedStay` | internal/transport/udp.go:447-450 | A session whose welcome could not be written stays in the table, closed, until the server closes; every other registered session has its cleanup goroutine. |
| `UdpServer.FailedWelcomesFillTable` | internal/transport/udp.go:401-450 | With 64 unwelcomed sessions in the table no later hello is served, however long the server runs. |
| `UdpServer.ServerFills` | internal/transport/udp.go:396-450 | A run from the start of 64 failed welcomes, after which no continuation without closing serves a hello. |
| `UdpServer.Server.constructor` | internal/transport/udp.go:337-346 | The tables start empty. |
| `UdpServer.Server.ConfirmSession` | internal/transport/udp.go:468-482 | The session becomes its remote's own and the earlier one is closed, unless it was removed meanwhile, which closes it instead and changes no table. |
| `UdpServer.Server.RemoveSession` | internal/transport/udp.go:453-461 | Removes the entry only if it still belongs to this session object. |
| `UdpServer.Server.Close` | internal/transport/udp.go:351-365 | Closes exactly the registered sessions and empties the tables once; a second call changes nothing. |
| `UdpServer.Server.Route` | internal/transport/udp.go:380-392 | A packet reaches a session if and only if its identifier is registered for the remote it came from. |
| `Managers.StepKeeps` | internal/transport/manager.go:112-260 | Every step keeps the books, and once cancelled a step registers nothing new. |
| `Managers.RunKeeps` | internal/transport/manager.go:112-260 | The same over every run. |
| `Managers.RegisteredOrClosed` | internal/transport/manager.go:217-260 | In every interleaving each session ever given is the registered one of its kind, closed, or about to be closed by the goroutine that replaced or removed it. |
| `Managers.OwedAreClosed` | internal/transport/manager.go:217-260 | From any such state the closes still owed can all be made, nothing else changes, and then every session ever given is registered or closed. |
| `Managers.NothingAfterCancel` | internal/transport/manager.go:112-127 | After cancellation whatever is registered was registered before with the same kind, and after the sweep nothing is. |
| `Managers.StaleRemoval` | internal/transport/manager.go:252-260 | In every reachable state, removing a replaced session leaves every other registration in place. |
| `Managers.Manager.constructor` | internal/transport/manager.go:29-36 | A new manager has no session. |
| `Managers.Manager.AddSession` | internal/transport/manager.go:217-230 | Registers the session and closes the one it replaces, or closes it after cancellation; nothing else changes and every session ever given stays registered or closed. |
| `Managers.Manager.RemoveSession` | internal/transport/manager.go:252-260 | Unregisters only the very session, and closes it either way. |
| `Managers.Manager.Send` | internal/transport/manager.go:78-110 | Whoever took the message is the registered session of the preferred carrier, or of the other one in mode both after the preferred one was removed and closed; success means exactly one session took it, once; no session means no usable carrier was registered; failure means every usable one was tried, removed and closed; untried sessions are untouched. |
| `Managers.Manager.Close` | internal/transport/manager.go:112-127 | Every session ever given is closed and nothing is registered. |
| `Writers.Conn.WriteAll` | internal/app/app.go:841-853 | However the connection cuts the writes, it ends with the whole buffer, or with exactly the part it could take and an error. |
| `OrderedFlow.DrainInStep` | internal/app/app.go:496-508 | Draining true chunks keeps the bytes written a prefix of the bytes read, also when a write fails in the middle of a chunk. |
| `OrderedFlow.ArriveInStep` | internal/app/app.go:479-510 | The arrival of any true chunk, early, late or repeated, keeps the bytes written a prefix of the bytes read. |
| `OrderedFlow.ArriveHas` | internal/app/app.go:479-510 | An arrival that reports no error leaves its chunk written or held, and loses none that was. |
| `OrderedFlow.ArriveExact` | internal/app/app.go:479-510 | The connection is given exactly the due chunk and the chunks held behind it, and an error is reported if and only if the number is more than 4096 ahead or the connection does not take all of them. |
| `OrderedFlow.AllWritten` | internal/app/app.go:479-510 | Once every chunk is written or held, all of them are written. |
| `OrderedFlow.HeldBounded` | internal/app/app.go:485-493 | At most 4096 chunks of a flow are held. |
| `OrderedFlow.TcpState.constructor` | internal/app/app.go:467-473 | A new flow expects chunk 1 and holds nothing. |
| `OrderedFlow.TcpState.WriteOrdered` | internal/app/app.go:479-510 | The method computes the arrival function: old chunks ignored, a gap over 4096 an error, early chunks held, due chunks and all they unblock written. |
| `TcpFlows.AcceptorSide` | internal/app/app.go:360-400 | An open request comes from the peer's own flow, so whatever its receiver has under that identifier is the acceptor's end, and if it has none, the opener has read nothing and no data of the flow was sent. |
| `TcpFlows.RolesStep` | internal/app/app.go:322-465 | Every action, whatever is repeated, keeps messages truthful about the flows, the two roles apart and data away from nodes without the flow. |
| `TcpFlows.RolesRun` | internal/app/app.go:322-465 | The same over every run. |
| `TcpFlows.NoEarlyData` | internal/app/app.go:322-450 | In every run a data message is only ever sent to a node that has installed the flow, so one that finds no state finds a flow already closed there. |
| `TcpFlows.ActKeeps` | internal/app/app.go:322-510 | Every action that does not mix two connections of a flow keeps the chunks of that flow that a reader may still write true and its bytes a prefix, whatever it does to other flows. |
| `TcpFlows.RunKeeps` | internal/app/app.go:322-510 | The same over every run without a mixing step of that flow. |
| `TcpFlows.BytesArePrefix` | internal/app/app.go:419-510 | For every flow, both ways, in every run in which no step mixes two connections of that flow, whatever happens to the others: the bytes written to the local connection are a prefix of the bytes read at the other node. |
| `TcpFlows.AllBytesArrive` | internal/app/app.go:419-510 | In every run that does not mix the flow, a live flow whose connection was given every chunk that the other end has read, in any order and with any repetition, has written all the bytes read there. |
| `TcpFlows.ChunkAnswered` | internal/app/app.go:439-450 | After a chunk was handled it is written or held by a live flow, or the peer was told that the flow is closed. |
| `TcpFlows.AlwaysServed` | internal/app/app.go:322-465 | In every run each live flow is waited for, about to be answered, or read from, so some goroutine can end it. |
| `TcpFlows.EndsAreTold` | internal/app/app.go:419-465 | When a read loop ends, its flow closes, and the peer can be told and then closes too. |
| `TcpFlows.RefusalsAreTold` | internal/app/app.go:335-380 | When a request is refused, its waiting opener can be told and then closes. |
| `TcpCarries.EverythingCarried` | internal/app/app.go:322-510 | For any chunks to be read at the two ends there is a run that opens a flow and ends with both ends up, each having written every byte read at the other. |
| `TcpFlows.ReopenExact` | internal/app/app.go:386-393 | Accepting a request over a closed flow keeps the opener's bytes a prefix if and only if the opener has written nothing, and keeps the invariant if and only if it does not mix (closed flow had read something, opener has written or may still write). |
| `TcpFlows.MixingBreaks` | internal/app/app.go:386-393 | After every mixing step the prefix is lost at once or with the next chunk of the old connection. |
| `TcpFlows.StaysClosed` | internal/app/app.go:452-465 | A flow that left the table and is not accepted again never comes back, and nothing more is written to its connection. |
| `TcpFlows.ShutIsHeeded` | internal/app/app.go:452-465 | A flow whose close message was handled, and that is not accepted again, stays closed. |
| `TcpFlows.OpenersStayClosed` | internal/app/app.go:360-400 | Only the acceptor's end of a flow can be accepted again. |
| `TcpReopen.RepeatedOpenMixes` | internal/app/app.go:205-400 | For every window length, a run behind the duplicate window in which a request is served and closed, as many other messages are accepted as the window holds, and the copy of the request is served again: the opener writes what is not a prefix of what was read, with one message more accepted than the bound of SmallPrefix, which is therefore exact. |
| `TcpWindow.TurnKeeps` | internal/app/app.go:205-253 | With the duplicate window in front of every message, TCP or not, every step keeps each job to one acceptance of its request, every accepted flow to a job done, and equal identifiers more than a window apart. |
| `TcpWindow.PlayKeeps` | internal/app/app.go:205-253 | The same over every run. |
| `TcpWindow.ReopenNeedsWindow` | internal/app/app.go:360-393 | In every run a request is accepted over a closed flow only after its copies were accepted twice, more than a whole window apart. |
| `TcpWindow.FilteredPrefix` | internal/app/app.go:205-510 | In every run, for every flow whose request no node accepted twice more than a window apart, whatever else was accepted how often, the bytes written are a prefix of the bytes read. |
| `TcpWindow.SmallPrefix` | internal/app/app.go:205-510 | In particular for every flow while each node accepted at most one message more than the window holds. |
| `DuplicateFilter.NoRepeatWithin` | internal/app/app.go:779-799 | Zero is never accepted, and no identifier is accepted twice within one window length. |
| `DuplicateFilter.FirstIsNew` | internal/app/app.go:779-799 | Whatever identifier comes for the first time, and is not zero, is answered as new. |
| `DuplicateFilter.NewAtMostOnce` | internal/app/app.go:779-799 | While at most N identifiers were accepted in all, a repeated identifier is always answered as duplicate. |
| `DuplicateFilter.CopyRefusedExactly` | internal/app/app.go:779-799 | A copy of an accepted identifier is refused if and only if at most N identifiers, its own included, were accepted since. |
| `DuplicateFilter.AnswersAre` | internal/app/app.go:779-799 | The list of answers is, position by position, the simple specification. |
| `DuplicateFilter.AnswerAll` | internal/app/app.go:779-799 | For every call sequence and every ring length, the ring and map answer as the simple filter over the last N accepted identifiers. |
| `DuplicateFilter.Filter.constructor` | internal/app/app.go:114-115 | A ring of zeros with an empty set is the window of nothing accepted. |
| `DuplicateFilter.Filter.IsDuplicate` | internal/app/app.go:779-799 | True exactly for zero and the last N accepted; the set stays equal to the non-zero, pairwise distinct ring entries. |
| `Fragments.Parts` | internal/app/app.go:582-585 | The number of parts is the least that covers the datagram, at least one. |
| `Fragments.Piece` | internal/app/app.go:586-595 | No piece of a datagram that needs more than one is empty. |
| `Fragments.SendDatagram` | internal/app/app.go:578-601 | Up to 65507 bytes become all their fragments in order, or those before the first failed send; never more than 55. |
| `Fragments.Reassembler.constructor` | internal/app/app.go:113 | No datagram is under way at first. |
| `Fragments.Reassembler.HandleChunk` | internal/app/app.go:603-656 | Any message, well formed or not, has the effect of the feed function on the table and the delivery. |
| `Fragments.Reassembler.StoreChunk` | internal/app/app.go:612-656 | The stored part, the count, the capacity refusal, the mismatch removal and the delivered bytes are those of the store function. |
| `Fragments.Reassembler.Cleanup` | internal/app/app.go:753-759 | Exactly the assemblies older than 30 seconds leave. |
| `Fragments.JoinAll` | internal/app/app.go:644-655 | The appended chunks are the concatenation in part order. |
| `Fragments.AlwaysBounded` | internal/app/app.go:603-656 | Whatever messages come, well formed or not: at most 4096 datagrams of at most 128 parts are under way, and nothing longer than 65507 bytes is delivered. |
| `Reassembly.WholeJoin` | internal/app/app.go:586-655 | Joining all pieces of a datagram gives back its bytes. |
| `Reassembly.FragmentReads` | internal/app/app.go:592-611 | Every fragment the sender makes passes the receiver's checks and is read back as its part, total and piece, with at most 55 parts. |
| `Reassembly.StoreTrue` | internal/app/app.go:612-656 | A new true part that meets its own assembly or none completes the datagram with its original name and bytes exactly when it is the last one missing, else extends or starts its assembly, else is refused for capacity. |
| `Reassembly.StepKeeps` | internal/app/app.go:603-656 | Every expiry and every fragment, in any order and interleaving, keeps the assemblies and deliveries under a key true, unless it enters the assembly of another datagram under that key; what is mixed under other keys does not matter. |
| `Reassembly.RunKeeps` | internal/app/app.go:603-656 | The same over every run. |
| `Reassembly.OnlyOriginals` | internal/app/app.go:578-656 | In every run in which no fragment mixes two datagrams under a key, only originals are delivered under that key, by their own name, each at most once. |
| `Reassembly.DeliveredExactly` | internal/app/app.go:578-656 | In every run that does not mix under its key, a datagram is delivered if and only if all its fragments were processed and none of it was removed, refused or ignored. |
| `Reassembly.SweepExact` | internal/app/app.go:753-759 | In every run a cleanup keeps, unchanged, exactly the assemblies whose first fragment came within the last 30 seconds, and drops exactly the datagrams that began the others. |
| `Reassembly.ForeignPartExact` | internal/app/app.go:623-634 | A fragment of another datagram with as many parts leaves an assembly true to its own if and only if it brings no name to a nameless one, and the part is there already or the pieces are the same. |
| `Reassembly.MixedDelivery` | internal/app/app.go:612-656 | For any two two-part datagrams under one flow and number, a run of two fragments delivers the first half of one with the second half of the other. |
| `Reassembly.OwnKeyUnmixed` | internal/app/app.go:612-656 | A datagram that shares its flow and number with no other is never mixed, in any run. |
| `DatagramNumbers.OpKeeps` | internal/app/app.go:686-720 | Making, removing and numbering keep the numbers of every flow object rising from 1. |
| `DatagramNumbers.WorkKeeps` | internal/app/app.go:686-720 | The same over every run. |
| `DatagramNumbers.SharedKeyExactly` | internal/app/app.go:686-720 | In every run two datagrams share a key if and only if two flow objects made under one identifier have both numbered datagrams. |
| `DatagramNumbers.NeverRemoved` | internal/app/app.go:726-733 | Under an identifier that is never removed at most one flow object is ever made. |
| `DatagramNumbers.OwnKey` | internal/app/app.go:718 | The keys of a flow that was never removed do not come again. |
| `DatagramNumbers.NeverRemovedNeverMixed` | internal/app/app.go:537-720 | In every run of the reassembler a datagram of a flow that was never removed is delivered as it was sent, at most once, and exactly when all its fragments were processed and none was dropped. |
| `UdpFlowTable.KeyInjective` | internal/app/app.go:550 | Different clients have different keys. |
| `UdpFlowTable.ClientsApart` | internal/app/app.go:546-576 | Two clients in the table never share an identifier. |
| `UdpFlowTable.Pick` | internal/app/app.go:562-575 | The identifier chosen is the first of the first ten draws that is not in use, and none is chosen exactly when all of them are. |
| `UdpFlowTable.StepKeeps` | internal/app/app.go:546-576 | Every operation keeps the two maps a bijection of at most 65536 entries. |
| `UdpFlowTable.AlwaysBijective` | internal/app/app.go:546-777 | The same over every sequence of lookups, replies, cleanups and closes. |
| `UdpFlowTable.LookupExact` | internal/app/app.go:546-576 | A lookup gives an identifier if and only if the client is known, or there is room and one of ten draws is free, and that identifier is then the client's; a known client gets the one it has. |
| `UdpFlowTable.ActiveKeepsIdentifier` | internal/app/app.go:546-777 | A client that is looked up or replied to within the two minutes before every cleanup keeps the identifier it got, whatever the other clients do, and the next cleanup removes it if and only if its last use is more than two minutes ago. |
| `UdpFlowTable.FlowTable.constructor` | internal/app/app.go:110-111 | Both maps start empty. |
| `UdpFlowTable.FlowTable.GetEntryFlow` | internal/app/app.go:546-576 | Returns the client's identifier, an unused one of ten draws, or none when closed, full or out of draws, with the tables changed accordingly. |
| `UdpFlowTable.FlowTable.HandleReply` | internal/app/app.go:658-670 | A reply finds the client of its identifier and counts it as active. |
| `UdpFlowTable.FlowTable.Cleanup` | internal/app/app.go:760-769 | The nested loops remove exactly the idle flows and exactly the keys that named them. |
| `UdpFlowTable.FlowTable.RemoveKeysOf` | internal/app/app.go:763-767 | Exactly the keys of that identifier go. |
| `UdpFlowTable.FlowTable.Close` | internal/app/app.go:190-198 | Both maps are emptied and later lookups are refused. |
| `TcpRecords.FrameReads` | internal/transport/tcp.go:59-131 | A frame of any payload up to the maximum, in front of anything, passes the reader's length test and gives back its payload. |
| `TcpRecords.CutFrameReads` | internal/transport/tcp.go:91-116 | A frame cut short anywhere yields nothing and no error but the end of the stream. |
| `TcpRecords.NextFrameExactly` | internal/transport/tcp.go:91-131 | The reader takes a frame if and only if its length is allowed and all there, its number is the expected one, and its body opens under that number. |
| `TcpRecords.FramedOk` | internal/transport/tcp.go:59-131 | The record format is a framing in the sense the stream theorems use. |
| `TcpRecords.ReadLoop` | internal/transport/tcp.go:91-131 | The loop computes the recursive reading of the stream: payloads, next number and reason to stop. |
| `TcpRecords.ReadsComplete` | internal/transport/tcp.go:91-131 | From any cut of the stream the reader yields exactly the payloads whose frames are complete, in order, with its number in step, and stops only at the end. |
| `TcpRecords.WrittenReads` | internal/transport/tcp.go:59-131 | The same of whatever a sender's connection took, short and failed writes included. |
| `TcpRecords.ReadsOnlySent` | internal/transport/tcp.go:91-131 | Whatever bytes arrive, cut, altered, repeated or reordered: if no seal in them is forged, the reader yields a prefix of the payloads sent. |
| `TcpRecords.NoncesDistinct` | internal/transport/tcp.go:70-74 | Fewer than 2^64 seals of a sender never repeat a nonce. |
| `TcpRecords.TcpSender.constructor` | internal/transport/tcp.go:33-52 | Nothing was sent or sealed. |
| `TcpRecords.TcpSender.WriteFrame` | internal/transport/tcp.go:80-87 | The connection takes the whole frame, or part of it and is closed. |
| `TcpRecords.TcpSender.Send` | internal/transport/tcp.go:59-89 | The connection always holds a prefix of the frames of everything sent, numbered from 1; success appends one whole frame; every seal has the next nonce. |
| `Messages.Encode` | internal/protocol/message.go:40-68 | Succeeds exactly on a known type and fields within limits, with 40 bytes besides the fields. |
| `Messages.DecodeEncode` | internal/protocol/message.go:40-102 | Decoding undoes encoding for every message that encodes. |
| `Messages.EncodeDecode` | internal/protocol/message.go:40-102 | Whatever is accepted with type 1..8 encodes again to the same bytes, up to the two reserved ones. |
| `Handshakes.Encode` | internal/transport/handshake.go:48-74 | Succeeds exactly on a 32-byte nonce and identifiers of 1 to 64 bytes, and then has 90 bytes besides the identifiers, between 92 and 218 in all. |
| `Handshakes.DecodeEncode` | internal/transport/handshake.go:48-105 | Decoding undoes encoding under the same secret and bound nonce, for any MAC of 32 bytes. |
| `Handshakes.EncodeDecode` | internal/transport/handshake.go:48-105 | Whatever is accepted carries the right MAC and is the encoding of what was read, up to the two reserved bytes. |
| `Tun.IPv6UpperLayerProtocol` | internal/tun/tun_linux.go:118-161 | The loop stays in bounds and equals the recursive header chain, cut off at 16 headers. |
| `Tun.IPProtocol` | internal/tun/tun_linux.go:97-116 | By version: the IPv4 protocol byte of a packet that holds its header, or the IPv6 walk. |
| `Tun.PacketAllowed` | internal/tun/tun_linux.go:77-95 | Lets a packet through if and only if its protocol is TCP or UDP and that name is listed. |
| `Tun.ChainReads` | internal/tun/tun_linux.go:118-161 | A packet built from any list of extension headers is read back as that many headers and its upper layer. |
| `Tun.FifteenExtensions` | internal/tun/tun_linux.go:118-161 | Such a packet is classified if and only if at most 15 extension headers come first. |
| `Tun.CutIsRefused` | internal/tun/tun_linux.go:118-161 | An IPv6 packet that ends anywhere before its upper layer begins is not classified. |
| `Tun.IPv4Reads` | internal/tun/tun_linux.go:97-116 | An IPv4 packet is classified by its protocol field if and only if its header has at least 20 bytes and is all there. |
| `Tun.OtherVersions` | internal/tun/tun_linux.go:97-116 | Nothing but IPv4 and IPv6 is classified. |
| `Configs.NormalTwice` | internal/config/config.go:95-155 | Validating twice rewrites nothing more. |
| `Configs.LowerProtocols` | internal/config/config.go:230-241 | Lower-cases every entry; good if and only if each is tcp or udp and none is listed twice. |
| `Configs.Config.constructor` | internal/config/config.go:19-28 | The object holds the settings it was given. |
| `Configs.Config.ValidateTransport` | internal/config/config.go:157-203 | Rewrites mode and preference and accepts exactly the consistent ones with the addresses the role needs. |
| `Configs.Config.ValidateL3` | internal/config/config.go:205-243 | Applies the defaults and accepts exactly an MTU of 576 to 1300, valid CIDRs and distinct known protocols; anything when disabled. |
| `Configs.Config.ValidateServices` | internal/config/config.go:119-132 | Whatever the map order, rewrites every well-named service and accepts if and only if all are valid. |
| `Configs.Config.ValidateForwards` | internal/config/config.go:133-153 | Rewrites every forward and accepts if and only if all are valid and their names differ. |
| `Configs.Config.Validate` | internal/config/config.go:95-155 | Accepts if and only if the rewritten settings satisfy every rule. |
| `Sizes.BuiltSize` | internal/app/app.go:246-253 | In every accepted configuration every message the application builds, with TUN packets up to the MTU, encodes into at most 1340 bytes. |
| `Sizes.CarriersTakeIt` | internal/transport/udp.go:98-114 | So neither carrier refuses it for size, and its UDP packet fits its 16-bit length and the read buffer and comes back as sent. |
| `Sizes.PacketFitsExactly` | internal/app/app.go:255-277 | A packet read into the TUN buffer (MTU plus 128) is taken by the UDP carrier if and only if it has at most 1360 bytes. |
| `EndToEnd.MessagesInOrder` | internal/app/app.go:205-253 | In every run of the UDP carrier the i-th payload published decodes to the i-th message the peer encoded and sent. |

## Left out

- UdpTheorems.AcknowledgedIsDelivered: excepts the numbers acknowledged beyond the window, because for those it is false (UdpLoss.AcknowledgedAndLost); UdpTheorems.PacedNeverOverruns says how a sender has none.
- TcpFlows.BytesArePrefix: needs that no step mixes two connections of the flow, because otherwise it is false (TcpFlows.MixingBreaks). The prefix cannot be an equality, since a close message closes a flow at once.
- TcpFlows.StaysClosed: needs that the flow is not accepted again, because then it does come back (TcpReopen.RepeatedOpenMixes).
- TcpFlows.RolesStep: the capacity and service checks of an open request are one refusing action.
- Reassembly.OnlyOriginals: needs that no fragment enters another datagram's assembly under the key, because otherwise it is false (Reassembly.MixedDelivery).
- Managers.RegisteredOrClosed: a session that was replaced or removed is closed after the lock is released, so it is allowed to be still about to close.
- UdpTheorems.InOrderExactlyOnce: is restricted, like every theorem about a `Run`, to fewer than 2^64-1 numbered payloads. The counters wrap in the step system, but nothing is claimed past the wrap.
- TcpFlows.BytesArePrefix and DatagramNumbers.SharedKeyExactly: the 64-bit counters of chunks and datagrams do not wrap in the model.
- TcpRecords.TcpSender.Send: the sequence number is unbounded in the object; its bytes and nonce are taken modulo 2^64 as in the code.
- Messages.Encode: the successive buffer writes are one concatenation; the same holds for Handshakes.Encode and its byte array.
- UdpSessions.UdpSession.HandlePacket: a full receive queue and a blocked publication are not separate states. They appear as a session that closes and as `room`.
- Configs.Config.Validate: lower-casing is modelled for ASCII letters, and address and CIDR syntax are parameters. Error texts are reduced to accept or reject.
- Real cryptography, key derivation, the key-confirmation exchange and the freshness check of a handshake's timestamp.
- Dialling, reconnect loops, listeners and the length-prefixed handshake blobs of the TCP carrier.
- The manager's channel of incoming messages and a manager that was never started.
- The exit node's UDP sockets towards services and the hand-over of reassembled datagrams. The two nodes' random flow identifiers are taken to be distinct.
- Timers and goroutine scheduling, except as the order of steps and the comparisons with 350 ms, 30 s and 2 min.
- Sockets, the TUN device and the `ip` command, except as byte sources and sinks that may fail.
- JSON, configuration and secret files, the management interface, the command line, and the install and release scripts: nothing but plumbing.
