# Greynet: a verified model

Greynet is a friend-to-friend mesh plugin for playdar. A query floods over peer connections, results
return hop by hop along recorded origins, and a file is streamed back along the same path, each hop
asking only its neighbour. This project models that behaviour in Dafny and proves what the design
rests on. `dafny verify dfyconfig.toml` checks all of it.

## How it is built

- **Queries.** `NodeSpec` gives one peer as a value and what each handler does to it.
  `QueryHandlers.Greynet` is the same peer as a class that updates its tables in place; every method
  is proved to do what `NodeSpec` says. `Network` puts any number of peers on any finite, possibly
  cyclic graph and lets them take steps in any order: a query is typed in, playdar calls
  `start_resolving` or never gets to it, a 100 ms timer fires (cleanly or with an error), a packet is
  delivered, a local result or a solved query turns up, the initiator stops, a connection is lost or
  comes up. `ReplyTree`, `FloodBounds`, `Coverage`, `Results` and `StopWave` prove properties of all
  runs; `QueryDispatch` says what each message leaves behind, `QueryHistory` what the tables tell of the steps
  taken, `StopBounds` bounds the stop wave, and `StopRace` is a run that shows a stop lost.
- **Streams.** `StreamSpec` gives both halves of a stream, `StreamRelay` proves relays transparent,
  `StreamEvents` proves the single terminal call. `Text` and `UrlCodec` hold splitting, decimals and the
  `greynet://` URL.
- **Transfers.** `RegistrySpec` has the two transfer tables and the loops over them as values.
  `StreamHub` has all transfers of a peer at once, with the tables as written and a thread that can get
  caught, and proves when transfers are independent; `HubEnds` says of all runs when the thread is
  caught and which transfers get their one terminal call, and `HubRuns` what has been asked for and what a
  registered transfer has heard. `MessageDispatch` has the `message_received`
  that feeds them, dedup and SIDREQUEST included. `Transfers` has the classes `GreynetAsyncAdaptor`,
  `SsGreynet` and `Greynet`, proved to do what `StreamHub` and `MessageDispatch` say.
- **End to end.** `EndToEnd` puts mesh and streams together: from a result to the file.
- **Handshake.** `Handshake` has the IDENT exchange, as values and as a class.

## What is assumed

- Handlers run one at a time (one io_service thread, src/greynet.cpp:48). A packet may overtake
  others, so every run over FIFO connections is among the runs covered (a run given as an example is one
  over FIFO connections); streams of one sid keep their order.
- `gen_uuid` never repeats. `Net.issued` records what each GUID was generated for; query ids come from
  the same generator and belong to the peer that asked. JSON that a peer writes parses.
- playdar adds a query on dispatch and never removes it, calls `start_resolving` at most once per query
  and peer, ignores results for unknown queries, and calls the `send_response` callback once per result.
- A connection's name is its neighbour's. A weak origin pointer is good exactly while the connection is
  live. `Send` to a connection whose far end is gone is never delivered.
- A multimap's `find` gives the first entry of an equal range, `insert` adds at its end.
- The registry holds the only lasting reference to a transfer, so unregistering or displacing one disarms
  its timer; a cancelled timer reports an error. Each `ss_greynet` object starts one reply.
- End to end: a peer serves a sid from its reports of one query, and the connections on the way are up; a
  lost one is heard as a cancel.

## Where code and comments differ

The model follows the code.

- src/greynet.cpp:412 speaks of transfers "on this connection"; the loop at 417 runs to the end of the
  table. `RegistrySpec.LiteralTakesOthersIff` says exactly when other connections' transfers go too,
  `HubEnds.OtherLost` is a run in which they do, and `Transfers.Greynet.ConnectionTerminatedInRange` is
  the teardown the comment describes.
- `unregister_sidtransfer` looks the connection up again on every turn (src/greynet.cpp:439), so with
  another transfer first on the connection it never ends, and the one thread is caught in it.
  `RegistrySpec.LoopEndsIff` says exactly when, `HubEnds.SecondCatches` is a run of three events in
  which it happens. The classes record it in `hung`; nothing is required of callers to avoid it.
- `register_sidtransfer` asks itself whether a sid can be registered twice (src/greynet.cpp:455). It can:
  `RegistrySpec.RegisterTwoViewsIff` says that this is exactly what splits the tables, and
  `HubEnds.EndsOnceIff` that until the thread is caught exactly the transfers it happens to are never
  told to finish or cancel. `HubEnds.FirstDisplaced` is such a run.
- `StreamHub.TransfersIndependentIff` puts the three together: transfers are independent exactly on the
  runs in which none of the three happens. `HubEnds.OnePerConnection` is the case a caller can arrange.
- The message at src/greynet.cpp:371 speaks of a name mismatch, but no name is compared with the jid a
  cookie was issued to: `Handshake.ReadyUnderOtherNameIff` and `Handshake.OtherNameAdmitted`.
- src/greynet.cpp:602-604 relies on `fwd_search` looking at the stopped flag. It does, but
  `start_resolving` does not: `StopWave.StoppedSender` says exactly what a stopped peer still sends.
- `message_received` records a QUERYSTOP's GUID before the origin is checked (src/greynet.cpp:481, 596):
  `NodeSpec.StopApplied` says exactly which stops take hold, `StopWave.StopsIffFirstStopHolds` exactly who
  stops on a run, and `StopRace.StopLostInRace` is a run over a triangle of FIFO connections in which a peer never does.
- A stream arrives as it was sent exactly under the conditions in `StreamRelay.StreamArrivesIff`: an empty
  chunk ends it, a tab or newline in the mime type breaks the header block, and a cancel before the first
  data hides what was set.

## Model

| member | source | states |
|---|---|---|
| QueryHandlers.Greynet.ForeachConnsExcept | src/greynet.cpp:608-610 | one write per live connection other than the excepted one, in order |
| QueryHandlers.Greynet.MessageReceived | src/greynet.cpp:459-526 | the query half of the dispatch: duplicates dropped, then the new tables and all writes are those of `NodeSpec`, of which the lemmas of `QueryDispatch` say what each message does |
| QueryHandlers.Greynet.HandleQuery | src/greynet.cpp:528-584 | unknown queries get origin, table entry, pending resolve and timer; known ones change nothing |
| QueryHandlers.Greynet.HandleQueryStop | src/greynet.cpp:587-611 | only a stop over the query's live origin marks it stopped and goes on |
| QueryHandlers.Greynet.FwdSearch | src/greynet.cpp:614-639 | the timer is spent; nothing is sent on an error, or for a solved or stopped query |
| QueryHandlers.Greynet.SendResponse | src/greynet.cpp:642-658 | the result, URL stripped, to the origin if that is connected |
| NodeSpec.StopApplied | src/greynet.cpp:475-482 | a stop takes hold if and only if its GUID is new and it came over the live origin; it then goes to exactly the other connections |
| NodeSpec.TimerRelays | src/greynet.cpp:620-638 | exactly when and to whom a timer relays, and under which GUID |
| QueryDispatch.ConnsLeft | src/greynet.cpp:528-549 | for every message: a connection goes only if the message came over it, is new, and is a QUERY or QUERYRESULT that cannot be read |
| QueryDispatch.SeenOnce | src/greynet.cpp:465-482 | dedup remembers every GUID but a stream message's, and what it drops does nothing |
| QueryDispatch.OnlyAnswers | src/greynet.cpp:484-525 | PING gets one PONG over its connection; PONG, SIDREQUEST, stream and unknown messages write nothing and touch no query table |
| QueryDispatch.QueryTaken | src/greynet.cpp:552-584 | a query new to the peer ends up known, owed to `start_resolving`, with its origin and its one timer; nothing else changes |
| QueryDispatch.ResultTaken | src/greynet.cpp:642-706 | a result of a known query is reported once as the neighbour's and goes on, URL stripped, to the live origin only |
| QueryDispatch.ResolvingAsks | src/greynet.cpp:255-262 | one copy under the fresh GUID to every connection but the live origin |
| QueryDispatch.StopTaken | src/greynet.cpp:587-611 | a stop touches the stopped flag of its query alone, and that and where it goes under exactly one condition |
| QueryHistory.OwedOrDone | src/greynet.cpp:559-584 | on every run a query is owed to `start_resolving` unless playdar called or dropped it, was asked exactly if it was called, and has its timer waiting exactly until that fires |
| QueryHistory.StepConns | src/greynet.cpp:408-431 | the connections of a peer after a step are those it had but the one it loses, and the one that comes up |
| Network.StepInv | src/greynet.cpp:460-658 | every step of every peer keeps the mesh invariant: a QUERY under way from u means u knows it and it is not going to u's origin, a seen QUERY GUID means its query is known, only the initiator lacks an origin |
| Network.RunInv | src/greynet.cpp:460-658 | on every run the invariant holds, nothing known is forgotten, no origin changes |
| ReplyTree.RepliesReachInitiator | src/greynet.cpp:559-561 | on every run, from every peer that knows a query, origins lead to its initiator in fewer hops than there are peers, meeting nobody twice |
| ReplyTree.OriginsSafe | src/greynet.h:91-99 | origins only for known queries, written once, and no copy of a query ever on its way back over its origin |
| FloodBounds.StepMeasure | src/greynet.cpp:614-639 | a measure of the flood's remaining work grows only by four for a new connection and falls with every query step, although a step may send many copies |
| FloodBounds.FloodEnds | src/greynet.cpp:255-262 | no TTL needed: over any run one query takes at most two steps per connection end and two per peer, and at most two copies per connection end, ends that come up meanwhile included |
| FloodBounds.AtMostTwice | src/greynet.cpp:552-584 | on every run each peer hands a query to playdar at most once and broadcasts it at most twice |
| Coverage.ReachedStays | src/greynet.cpp:475-482 | no step, dropping duplicates included, loses a query on its way to somebody who does not know it |
| Coverage.FloodCovers | src/greynet.cpp:614-639 | once no copy is under way, every peer joined to the initiator by a path of peers that relayed the query knows it |
| Results.UrlsLeadToHolder | src/greynet.cpp:698-705 | on every run, whichever report each peer uses, its URL is local or names a neighbour that has the result and is one step deeper in the reply tree; every such choice ends, in fewer hops than there are peers, where the file is |
| Results.ResultsConserved | src/greynet.cpp:642-658 | while the connections the query came over last, whatever others are lost, every result reported off the initiator is, counted once, on its way to the origin or reported there, and the initiator holds or has coming exactly what was found anywhere |
| Results.InitiatorHasAll | src/greynet.cpp:660-706 | with none under way, the initiator has every local find exactly once |
| Results.NothingDuplicated | src/greynet.cpp:642-658 | on every run, whatever is lost, the initiator holds or has coming no more than was found anywhere |
| Results.StepResultsFresh | src/greynet.cpp:655 | results under way have distinct GUIDs nobody has seen, so dedup drops none |
| StopWave.StopsComeFromInitiator | src/greynet.cpp:596-610 | whoever sent a QUERYSTOP under way has stopped, and so has everybody on a stopped peer's way to the initiator, initiator included |
| StopWave.StopReachesNeighbours | src/greynet.cpp:605-610 | with none under way, all neighbours of a stopped peer but its origin have heard the stop |
| StopWave.StoppedSender | src/greynet.cpp:255-262 | a stopped peer broadcasts the query if and only if a pending `start_resolving` runs and it has another connection |
| StopWave.StoppedTimersSilent | src/greynet.cpp:631-635 | after a peer stopped a query no timer there ever broadcasts it |
| StopWave.StopLost | src/greynet.cpp:481 | a stop that was seen but did not take hold never will |
| StopWave.StopsIffFirstStopHolds | src/greynet.cpp:587-611 | on every run a peer other than the initiator has stopped a query if and only if the first QUERYSTOP for it delivered there came over its live origin |
| StopBounds.StopAtMostOnce | src/greynet.cpp:605-610 | on every run each peer but the initiator broadcasts a stop for a query at most once |
| StopBounds.StopWaveEnds | src/greynet.cpp:605-610 | over any run at most one copy of a stop is passed on per connection end |
| StopRace.StopLostInRace | src/greynet.cpp:475-482 | a run over a triangle, every connection delivering in order, in which the initiator's stop overtakes the copy from the origin, and no run from there ever stops that peer |
| Text.AtoiPrinted | src/ss_greynet.cpp:152 | `atoi` of a printed integer is that integer, negative ones too |
| Text.AtoiReads | src/ss_greynet.cpp:152 | white space, a sign or none, a number, and anything that follows, read as that number |
| Text.SplitJoins | src/ss_greynet.cpp:142-147 | the parts with the delimiter between them are the text split |
| StreamRelay.HeadersRead | src/ss_greynet.cpp:135-177 | reading a printed header block gives status, mime type and length when the status is 200 and the mime type clean; the status and a cancel for any other status and any mime type |
| StreamRelay.HeaderBlockRoundTrip | src/greynet_asyncadaptor.hpp:82-91 | with status 200 all three fields come back if and only if the mime type has no tab or newline |
| StreamRelay.HeardGood | src/ss_greynet.cpp:106-177 | whatever arrives in whatever order, the calls made are well formed |
| StreamRelay.RelaysTransparent | src/greynet_asyncadaptor.hpp:33-50 | for every sequence of wire messages, any number of relays send and deliver what one does |
| StreamRelay.GoodWiresUnchanged | src/greynet_asyncadaptor.hpp:33-57 | a relay passes on unchanged what an adaptor sends for well-formed calls |
| StreamRelay.StreamArrivesIff | src/ss_greynet.cpp:106-133 | over any number of relays the consumer hears exactly the source's calls if and only if status 200, clean mime type, no empty chunk, and not a bare cancel |
| StreamRelay.SourceHeardIff | src/greynet_asyncadaptor.hpp:21-57 | a source that sets fields in any order, repeatedly or not at all is heard with the last values set, or 200, application/binary and 0 |
| StreamRelay.OtherStatusHeard | src/ss_greynet.cpp:150-161 | another status is heard as status and cancel one hop on, and as a bare cancel after that |
| StreamRelay.NotFoundHeard | src/greynet.cpp:735-741 | the 404 answer for an unknown sid likewise |
| StreamEvents.OneTerminalCall | src/ss_greynet.cpp:98-133 | for every interleaving: no finish or cancel while the transfer lives, exactly one, and last, once it is over; the byte count is the bytes handed on |
| StreamEvents.EndsIff | src/ss_greynet.cpp:106-161 | which events end a transfer: end marker, SIDFAIL, refusing headers, connection loss, timeout before headers, no others |
| StreamEvents.EndedExactlyOnce | src/ss_greynet.cpp:126-133 | after any ending event exactly one terminal call has been made, whatever else comes |
| StreamEvents.TransferRemembers | src/ss_greynet.cpp:77-96 | for every interleaving from the start on: bytes counted, length and finished flag are what the calls say, and the headers timer of a live transfer runs exactly while no headers have come |
| StreamEvents.LineCalls | src/ss_greynet.cpp:142-175 | for every header line, which calls are made and that no others are |
| UrlCodec.UrlRoundTrip | src/ss_greynet.cpp:59-66 | parsing a printed URL gives name and sid back if and only if the name has no semicolon |
| UrlCodec.ParsesIff | src/ss_greynet.cpp:59-66 | for every text and whatever its first ten characters: what is parsed, and when nothing is |
| UrlCodec.PrintedScheme | src/greynet.cpp:792-799 | a printed URL has the scheme the factory is registered for |
| UrlCodec.ParsedUrlReprints | src/ss_greynet.cpp:59-66 | reprinting a parsed URL gives it back if and only if it began with the greynet prefix |
| RegistrySpec.LoopEndsIff | src/greynet.cpp:438-446 | the unregister loop ends if and only if the connection has no transfers or the wanted one is its first |
| RegistrySpec.LiteralIsIntended | src/greynet.cpp:434-448 | where it ends it removes exactly that entry and that sid |
| RegistrySpec.DrainStretch | src/greynet.cpp:426-430 | cancelling in gather order: every unregister ends, no entry is missing, exactly the stretch goes |
| RegistrySpec.TeardownLiteral | src/greynet.cpp:408-431 | the teardown as written always completes and removes exactly what it gathered |
| RegistrySpec.LiteralTakesOthersIff | src/greynet.cpp:417 | it takes other connections' transfers along if and only if the connection has some and a later-ordered one has some |
| RegistrySpec.TeardownIntended | src/greynet.cpp:412-414 | gathering only the connection's own entries leaves exactly the others' transfers |
| RegistrySpec.RegisterTwoViewsIff | src/greynet.cpp:450-457 | registering keeps the tables two views of one map if and only if the sid is not live |
| RegistrySpec.RunsRefineIff | src/greynet.cpp:408-457 | on every run of the loops as written both tables are views of one map that behaves like a single map, if and only if no sid is begun twice, no transfer ends that is not its connection's first, and no teardown takes others along |
| RegistrySpec.SecondStuck | src/greynet.cpp:438-446 | tables reached by two registrations on which the loop never ends |
| RegistrySpec.OtherTaken | src/greynet.cpp:417-430 | tables reached by two registrations on which the teardown takes another connection's transfer |
| StreamHub.TransfersIndependentIff | src/greynet.cpp:408-526 | for every run of any number of transfers: at every moment and whatever message comes next, each adaptor has exactly the calls of a run on its own, if and only if no event finds a transfer ending that is not its connection's first, a sid begun that has a live transfer, or a lost connection and a later-ordered one both with transfers |
| HubEnds.HaltsIff | src/greynet.cpp:408-448 | on every run the thread is caught by an event exactly when the transfer it ends is not its connection's first, or a lost connection's transfers cannot be cancelled to the end; the latter only if some sid was begun twice |
| HubEnds.OnePerConnection | src/greynet.cpp:433-457 | with at most one live transfer to a connection the thread is never caught and transfers are independent |
| HubEnds.EndsOnceIff | src/ss_greynet.cpp:98-133 | for every run and transfer, until the thread is caught: no terminal call while it is registered and exactly one, last, since, if and only if its sid was not begun again while it was registered |
| HubRuns.RequestsAre | src/greynet.cpp:715-724 | on every run the SIDREQUESTs sent are exactly the starts on ready connections, in order |
| HubRuns.RegisteredAsAlone | src/greynet.cpp:751-790 | on every run, disturbed or not, a transfer still registered has made exactly the calls of its own run |
| HubRuns.TimerCancelsIff | src/ss_greynet.cpp:91-104 | on every run the headers timer of a registered transfer cancels it if no headers have come since its start, and does nothing otherwise |
| StreamHub.DisplacedNeverEnds | src/greynet.cpp:454-455 | a transfer live when its sid is begun again is never called again on any run, so never told to finish or cancel |
| HubEnds.TeardownCancels | src/greynet.cpp:408-431 | the teardown as written cancels each gathered transfer once and no other, and both tables end as the drain says |
| HubEnds.InRangeCancels | src/greynet.cpp:412-414 | the teardown as meant cancels the connection's transfers once each and leaves all others as they are |
| HubEnds.SecondCatches | src/greynet.cpp:438-446 | two transfers on one connection, the later one's end marker first: the thread is caught and the earlier one misses what comes next |
| HubEnds.OtherLost | src/greynet.cpp:417-430 | two transfers on two connections, the first lost: the other is cancelled although nothing happened to it |
| HubEnds.FirstDisplaced | src/greynet.cpp:454-455 | one sid begun twice: the first adaptor hears nothing on any continuation |
| MessageDispatch.HandledIff | src/greynet.cpp:465-519 | on every run each stream message reaches its handler, a SIDREQUEST for another peer's stream starts that stream over that peer's connection if and only if its GUID is new among messages other than stream messages, and the other inputs always get through |
| MessageDispatch.UnknownAnswered | src/greynet.cpp:734-741 | a new SIDREQUEST for a sid playdar cannot serve gets one answer, over its connection, heard as status 404 and a cancel; nothing is started |
| MessageDispatch.OthersHanded | src/greynet.cpp:742-748 | one for a sid another strategy serves is handed to that, once, and not answered |
| MessageDispatch.NothingElseAnswered | src/greynet.cpp:474-482 | no other input is answered or handed on, and a SIDREQUEST whose GUID came before does nothing |
| MessageDispatch.PeerIndependentIff | src/greynet.cpp:459-526 | transfers are independent in the same sense and under the same condition for every sequence of messages, duplicates and SIDREQUESTs included, start_replies, timers and lost connections |
| MessageDispatch.ExemptionNeeded | src/greynet.cpp:465-472 | a live transfer hears both of two chunks; if stream messages were deduplicated it would hear one at most |
| EndToEnd.FileArrivesIff | src/greynet.cpp:698-749 | on every run, from any report at any peer and whatever report each peer on the way serves: the stream comes over fewer hops than there are peers from a peer that found the item itself, and is heard exactly as made there if and only if it is the peer's own or meets the condition of `StreamArrivesIff` |
| EndToEnd.RequestFollows | src/greynet.cpp:715-749 | on the way to a file every peer asked sends one SIDREQUEST to the next and nobody answers 404; the one that found the item hands the request to its own strategy |
| Transfers.GreynetAsyncAdaptor.WriteContent | src/greynet_asyncadaptor.hpp:33-43 | headers before the first data, then the data |
| Transfers.SsGreynet.StartReply | src/ss_greynet.cpp:77-96 | registered, requested and timed when the connection is ready; one cancel and an unregistering when not, whatever the tables hold; `HubRuns.RequestsAre` and `HubRuns.TimerCancelsIff` say what comes of it |
| Transfers.SsGreynet.SidDataHandler | src/ss_greynet.cpp:106-124 | reacts as `StreamSpec.React`, at the end marker unregisters, or is caught in the loop |
| Transfers.SsGreynet.SidHeadersHandler | src/ss_greynet.cpp:135-177 | the loop over lines reacts as `StreamSpec.React`, cancelling at most once |
| Transfers.SsGreynet.TimeoutCb | src/ss_greynet.cpp:98-104 | cancels unless the timer reports an error |
| Transfers.Greynet.RegisterSidTransfer | src/greynet.cpp:450-457 | both tables gain the transfer, whether the sid was registered or not |
| Transfers.Greynet.UnregisterSidTransfer | src/greynet.cpp:433-448 | the loop as written; where it would not end, the thread is caught |
| Transfers.Greynet.HandleSidData | src/greynet.cpp:751-764 | only the registered transfer of that sid reacts, others are untouched |
| Transfers.Greynet.HandleSidHeaders | src/greynet.cpp:766-777 | likewise for headers |
| Transfers.Greynet.HandleSidFail | src/greynet.cpp:779-790 | likewise for a failure, which cancels |
| Transfers.Greynet.HandleSidRequest | src/greynet.cpp:728-749 | as `MessageDispatch.HandleSidRequest`: a sid playdar cannot serve gets the 404 answer, one of another strategy goes there, another peer's stream is started |
| Transfers.Greynet.MessageReceived | src/greynet.cpp:465-519 | the transfers' half of the dispatch: stream messages pass whatever GUIDs were seen, a SIDREQUEST is handled once, all as `MessageDispatch.MessageReceived` |
| Transfers.Greynet.ConnectionTerminated | src/greynet.cpp:408-431 | as written: gathers to the end of the table and cancels one after the other, as `StreamHub.Cancelled`, of which `HubEnds.TeardownCancels` says the outcome |
| Transfers.Greynet.ConnectionTerminatedInRange | src/greynet.cpp:412-414 | as meant: gathers the connection's own; `HubEnds.InRangeCancels` says the outcome |
| Handshake.NamesDistinct | src/greynet.cpp:349-354 | on every interleaving live ready connections have different names |
| Handshake.ReadyPresentedCookie | src/greynet.cpp:358-380 | every ready incoming connection presented, under its name, a cookie issued by then |
| Handshake.NameNeedNotMatch | src/greynet.cpp:349-390 | on every interleaving an incoming connection gets in if and only if the name is free and the cookie non-empty and issued, to anybody; its name differs from that jid exactly when the IDENT said so |
| Handshake.ReadyUnderOtherNameIff | src/greynet.cpp:349-390 | on every interleaving each ready incoming connection got in by presenting a cookie issued earlier to some jid, and its name is not that jid if and only if that IDENT gave another name |
| Handshake.OtherNameAdmitted | src/greynet.cpp:368-374 | a run in which one peer gets in under its name with the cookie issued to another |
| Handshake.PassedOnlyWhenReady | src/greynet.cpp:387-389 | a message reaches `message_received` exactly when its connection is ready |
| Handshake.IdentsSent | src/greynet.cpp:394-406 | on every interleaving our IDENTs are exactly: one with its cookie on each connection we open, one without on each opened to us when it becomes ready |
| Handshake.AdmittedIff | src/greynet.cpp:316-392 | whatever arrives on a connection that is not ready, it becomes ready under the name given if that is an acceptable IDENT and is closed if not; no other connection changes |
| Handshake.ClosesIff | src/greynet.cpp:301-313 | what closes a connection: termination, its watchdog while not ready, a message that does not make it ready; nothing else |
| Handshake.WatchdogSettles | src/greynet.cpp:301-313 | once its watchdog has fired a connection is ready or closed for good |
| Handshake.Greynet.ExpectIdentHandler | src/greynet.cpp:316-392 | every rejection closes; acceptance replies if incoming, pops the handler, sets ready and name; `Handshake.IdentsSent` and `Handshake.AdmittedIff` say it of runs |

## Left out

- Stop liveness: false, because a stop first heard from another neighbour is lost (`StopRace.StopLostInRace`); what is proved is exactly who stops (`StopWave.StopsIffFirstStopHolds`) and who hears it.
- FIFO order between different messages of one connection: not needed, so not assumed, outside streams.
- src/jbot.cpp and src/jbot.h: presence bookkeeping over XMPP.
- `init`, the destructor, `detect_ip`, `connect_to_peer`, `jabber_*`: sockets, threads and NAT control; connections and cookies arise as events of the model.
- HTTP handlers (src/greynet.cpp:801-904): user interface.
- JSON and the message constructors (src/greynet_messages.hpp): payloads are datatypes; libf2f and playdar are not part of this model beyond the assumptions above.
- playdar's `get_ss` and strategies other than another peer's stream are not part of this model; `HandleSidRequest` takes what `get_ss` gives, and hands such strategies their request.
- Who a QUERYSTOP starts with: no code here creates one, so the initiator's stop is a step of the environment.
- Single use of cookies: not claimed, because the issued cookies are never removed.
- At least one surviving link after simultaneous connects: not claimed, because both ends may drop both.
- Speed statistics and logging; `m_bytes_transferred` is an unbounded count, and `atoi` beyond 32 bits, undefined in the source, reads the whole number.
- `print_stats`, `debug` and the copy constructor of `ss_greynet`: no effect on the properties above.
- Text form of URLs in the mesh proofs: there a URL is a datatype naming a peer; `UrlCodec` has the text.
- QueryHandlers.Greynet.MessageReceived: stream messages and SIDREQUEST only pass it; `Transfers.Greynet.MessageReceived` hands them to their handlers.
- Order of connections in m_conn2sid: by number, any number to any connection; in the source it is by address.
