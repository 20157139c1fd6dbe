# crank4go: a model and its proofs

crank4go is a reverse proxy without inbound connections to its services. A *connector* beside
each service keeps a sliding window of idle websockets to every *router*; a router hands each
client request to one pooled socket and tunnels request and response over it. This project
models the router's socket pools, the connector's window, the life of a socket at both ends and
the wire format, and proves what they keep over all runs.

## How the project is laid out

| file | contents |
|---|---|
| `Text.dfy`, `Frames.dfy`, `Counting.dfy` | `strings.Split`, `strings.Index`, `strconv.Atoi`, decimal printing; websocket frames; counting |
| `CrankerProtocol.dfy` | request and response messages: builders, parsers, printers |
| `Url.dfy` | which destinations `url.Parse` of net/url accepts |
| `HeaderForwarding.dfy` | client headers through builder, wire, parser and first-colon split |
| `IterableChan.dfy` | the blocking queue with random removal, `Offer` atomic: class, abstract queue, refinement |
| `ChanInterleaving.dfy` | the same queue with every atomic access a step of its own |
| `DarkLaunch.dfy` | which services and ips may be dark, the nested-star regular expression |
| `FarmState.dfy`, `WebsocketFarm.dfy` | the pools as a value, and the classes whose methods compute it in place |
| `FarmRuns.dfy` | at most one place per socket, routing, placement, over all runs |
| `RouterSocket.dfy` | the router's end of a socket; reader and request goroutine interleaved |
| `ConnectorSocket.dfy` | the connector's end of a socket |
| `SendingLoops.dfy` | the two sending loops of the tunnel, over every way their reads and writes can fail |
| `Upload.dfy`, `Download.dfy` | request body and response end to end, over every chunking, interleaving and failure |
| `Connector.dfy` | the sliding window, attempts and backoff, shutdown |

Code that changes state is a class whose methods are tied, field by field, to a function of the
old state (`State() == old(State()).Op(...)`); the lemmas are about those functions, over runs of
arbitrary events. Handlers are atomic steps; goroutines are interleavings of them. Network, clock
and dial results are events. A parser that would panic returns `None`, a handler that would
panic sets `panicked` and its socket does nothing more.

## What turned out false, and exactly when

* **Hop-by-hop headers can reach the target request** (router/reverse_proxy.go:55-57, 223-236). Names are
  compared exactly and a Connection value is compared whole. `HopByHopStopsIff`: a client's line is
  kept back if and only if its name is empty, spelled as in the set or a whole value of Connection. The
  set says "TE", net/http stores the header as "Te": of the names as net/http stores them this is the
  only one missed (`OnlyTeIsMissed`, `HopByHopReachesIffTe`, `TeReachesTarget`). A header named in a
  comma-separated list of Connection options is sent on (`ListedOptionReachesTarget`).
* **An answer can be spoiled by its own request** (router/reverse_proxy.go:130-153,
  router/router_socket/router_socket.go:138-165, 237-261). When the target has answered in full while
  the router still sends the body, the close has set the session to nil, the next send panics, and the
  recovery appends a 502 page to the finished response (`EarlyAnswerGetsErrorPage`). `DownloadDelivers`:
  on a normal close to a client that stayed, the client is left with exactly the target's status and
  body if and only if no failing send or read of the request was handled; `NothingLeftToSend`: so it is whenever
  the close finds the request sent. A failing send also releases the client before the reader has
  ended (`FailedSendReleasesFirst`).
* **A destination can end the connector** (connector/connector_socket.go:151-152). The router sends the
  decoded path (router/reverse_proxy.go:258-266), the connector ignores the error of `url.Parse` and
  dereferences nil in a goroutine without recover. `UploadDelivers`, `NoBodyUpload` and `HeadPanicsIff`:
  this happens if and only if the destination does not parse; `DecodedEscapePanics`: a client's
  `/%25zz` is enough.
* **The decoded path is not one word on one line** (router/reverse_proxy.go:258-266,
  protocol/cranker_protocol.go:198-216). The destination arrives whole if and only if it has no space
  and no newline (`DestinationWholeIff`, `SpaceCutsDestination`). What follows a newline is read as
  headers: the target request has exactly the appended headers if and only if none of these lines has a
  colon past its start (`HeaderFidelityIff`, `NewlineAddsHeader`).
* **A router listed more than twice loses sockets** (connector/connector.go:98-105,
  connector/ws_cli_farm_conn_info.go:46-53). `isSafeToAddWebsocket` allows twice the window W, so for
  k > 2 listings the first closed socket is not replaced (`ThirdListingLosesSocket`), down to no less
  than 2W. `NeverRefusesIff`: over all runs before shutdown the "unexpected error" branch is never
  taken if and only if W is 0 or no router is listed more than twice.
* **A send failure can go unhandled** (router/reverse_proxy.go:153-155). When `SendData` fails but
  the read before it gave no error, the code calls `panic(err)` with the nil read error. The module
  is declared for Go 1.16 (go.mod:3), where `recover` then answers nil, so the failure is
  swallowed and the client waits until the reader goroutine ends. `RequestReleasesIffFailed`, over
  every sequence of reads and every point of failure, and `SendFailureReleasesIff`, for one event, show
  this to be the only such case.
* **Revocation does not move per-route sockets** (router/router_socket/websocket_farm.go:348, 427).
  The destination is looked up among the dark queues, so a revoked socket is re-offered to its own
  dark pool and then escapes `RemoveWebsocket` (`RevokedSocketEscapesRemoval`). **Service addition**
  compares the service with the ip (:306), so a socket stays in the normal pool when its route
  becomes dark (`AddedServiceLeavesSocket`). `ChangePlacedIff` and `StepPlacedIff` give the exact
  condition for every rule change.
* **A socket registered under the literal route "*"** goes to the catchall pool, where its removal
  does not look (`StarSocketEscapesRemoval`, `RemoveFindsIff`).
* **No socket is ever dark by ip through the router's own registration**: a socket is registered
  under its `host:port` remote address (router/router.go:136) and an accepted dark ip contains no
  colon, in any run (`RemoteAddressIsNeverDark`).
* **FIFO order** breaks exactly when a socket is re-offered over its own tombstone while an alive
  one stands only behind it (`OfferRefines`; `TombstoneJumpsQueue` is the shortest case).
* **Push before store** (router/router_socket/iterable_chan.go:84-86): a poll can drop the only copy
  of a socket that then becomes alive (`PushBeforeStoreLosesSocket`); `CoveredIffNoLoss` shows that
  nothing else makes an alive socket unreachable. Re-offering an alive socket breaks the counter
  (`StoreCountsIffDead`).
* **The body test depends on header order** (router/reverse_proxy.go:188-190) for a map with a
  Transfer-Encoding, another header and no Content-Length, and for no other (`BodyTestOrderIff`,
  `BodyTestDependsOnOrder`). The server of net/http takes Transfer-Encoding out of the map before a
  handler sees it, so behind it the test comes down to Content-Length and a chunked body is not
  announced.
* **Response headers are lost** in every decode (protocol/cranker_protocol.go:287-288): they are
  copied into a slice of length zero. Status, method and URL survive.

## Model

| member | source | states |
|---|---|---|
| IterableChan.IterableChan.Offer | router/router_socket/iterable_chan.go:77-93 | lands exactly when there is room; keeps the counter and coverage exactly when the socket was not alive |
| IterableChan.IterableChan.Remove | router/router_socket/iterable_chan.go:64-74 | true exactly for an alive socket, which is then dead; the channel is untouched |
| IterableChan.IterableChan.Poll | router/router_socket/iterable_chan.go:96-111 | the loop terminates, answers nil exactly when nothing is alive, else pops the abstract queue |
| IterableChan.IterableChan.PollTimeout | router/router_socket/iterable_chan.go:114-136 | answers a socket exactly when one is alive behind at most as many tombstones as the clock allows |
| IterableChan.IterableChan.LenAlive | router/router_socket/iterable_chan.go:48-50 | the counter is the number of alive sockets and the length of the abstract queue |
| IterableChan.PollRefines | router/router_socket/iterable_chan.go:96-111 | polling pops the head of the queue of alive sockets; nil leaves an empty channel |
| IterableChan.PollTimeoutRefines | router/router_socket/iterable_chan.go:114-136 | what it returns is what Poll returns; giving up loses no socket and has dropped exactly the dead copies it received, the one past the deadline included |
| IterableChan.RemoveRefines | router/router_socket/iterable_chan.go:64-74 | removal takes the socket out of the abstract queue and keeps the order of the rest |
| IterableChan.OfferRefines | router/router_socket/iterable_chan.go:77-93 | where an offered socket is queued; at the end if and only if no alive socket has its first copy behind a tombstone of it |
| IterableChan.TombstoneJumpsQueue | router/router_socket/iterable_chan.go:77-93 | offered, removed and offered again, a socket is queued before one offered in between |
| IterableChan.LiveDistinct | router/router_socket/iterable_chan.go:96-111 | a socket with several copies in the channel is queued once |
| IterableChan.LiveMembers | router/router_socket/iterable_chan.go:64-111 | the abstract queue holds exactly the alive sockets that have a copy |
| ChanInterleaving.EveryRun | router/router_socket/iterable_chan.go:64-136 | in every interleaving a stored offer is claimed at most once in all, and the counter is right when the goroutines are done |
| ChanInterleaving.RunInv | router/router_socket/iterable_chan.go:64-136 | length = alive − stores not yet counted + deletions not yet counted, at every step; stores = polls + removals + alive |
| ChanInterleaving.RemoveTrueLeavesOut | router/router_socket/iterable_chan.go:68-70 | a Remove that answers true leaves the socket neither alive nor on its way in |
| ChanInterleaving.OutStaysOut | router/router_socket/iterable_chan.go:64-136 | until it is offered again no poll and no Remove claims such a socket |
| ChanInterleaving.StoreCountsIffDead | router/router_socket/iterable_chan.go:85-86 | storing keeps the counter law if and only if the socket was not alive |
| ChanInterleaving.CoveredIffNoLoss | router/router_socket/iterable_chan.go:84-106 | a step keeps every alive socket receivable if and only if it does not drop the only copy of a socket pushed but not stored |
| ChanInterleaving.LosslessRunCovers | router/router_socket/iterable_chan.go:64-136 | a run without such a drop ends with a channel copy of every alive socket |
| ChanInterleaving.PushBeforeStoreLosesSocket | router/router_socket/iterable_chan.go:84-107 | a run of one offer and one poll that loses an alive socket |
| DarkLaunch.ServiceLanguage | router/darklaunch_manager/darklaunch_manager.go:136-141 | the language of the nested-star expression is: a letter, then letters, digits, '_' and '-' |
| DarkLaunch.ValidIpHasNoPort | router/darklaunch_manager/darklaunch_manager.go:143-160 | a valid dark ip contains no colon |
| DarkLaunch.ValidIpIff | router/darklaunch_manager/darklaunch_manager.go:143-160 | the valid ips are exactly four parts with dots between, each a decimal of at most 255, with leading zeros and a sign allowed and only zero negative |
| DarkLaunch.UsualIpIsValid | router/darklaunch_manager/darklaunch_manager.go:143-160 | every address in the usual notation is valid |
| WebsocketFarm.WebsocketFarm.AddWebsocket | router/router_socket/websocket_farm.go:107-141 | creates the queue if missing and starts one offer, to the dark pool exactly for a dark socket; the routes "" and "*" share the catchall pool |
| WebsocketFarm.WebsocketFarm.RemoveWebsocket | router/router_socket/websocket_farm.go:83-105 | removes from the pool that the current rules select, nothing else |
| WebsocketFarm.WebsocketFarm.AcquireSocket | router/router_socket/websocket_farm.go:143-175 | polls the queue of the route, or the catchall one, of the selected group |
| FarmState.ResolvesRoute | router/router_socket/websocket_farm.go:177-184 | the route of "/r" and of "/r/..." is r |
| WebsocketFarm.WebsocketFarm.Stop | router/router_socket/websocket_farm.go:60-81 | the polling loops close the session of every alive normal socket once, leave every normal queue empty, and touch nothing else |
| WebsocketFarm.WebsocketFarm.AfterDarkAdded | router/router_socket/websocket_farm.go:300-337 | the nested range loops of both added-callbacks amount to one simultaneous move |
| WebsocketFarm.WebsocketFarm.AfterDarkRevoked | router/router_socket/websocket_farm.go:339-377 | the same for the revoked-callbacks, which also turn gray testing off |
| WebsocketFarm.DarkLaunchManager.AddIp | router/darklaunch_manager/darklaunch_manager.go:66-74 | accepts exactly valid ips; rules and pools change together |
| WebsocketFarm.DarkLaunchManager.AddService | router/darklaunch_manager/darklaunch_manager.go:76-84 | accepts exactly valid services; rules and pools change together |
| WebsocketFarm.DarkLaunchManager.RemoveIp | router/darklaunch_manager/darklaunch_manager.go:86-94 | refuses an ip that is not dark, else rules and pools change together |
| WebsocketFarm.DarkLaunchManager.RemoveService | router/darklaunch_manager/darklaunch_manager.go:96-104 | refuses a service that is not dark, else rules and pools change together |
| FarmRuns.MarkLook | router/router_socket/websocket_farm.go:379-416 | an added-callback sends exactly the matching alive normal sockets to the dark pool and conserves the rest |
| FarmRuns.UnmarkLook | router/router_socket/websocket_farm.go:418-456 | a revoked-callback sends matching catchall sockets to the normal pool, per-route ones back to the dark one |
| FarmRuns.StepLook | router/router_socket/websocket_farm.go:60-456 | what every operation does to one socket, and that it does nothing to the others |
| FarmRuns.StepPlaces | router/router_socket/websocket_farm.go:60-456 | only its registration adds a place for a socket |
| FarmRuns.StepConserves | router/router_socket/websocket_farm.go:300-456 | a rule change or a request neither loses nor doubles a socket |
| FarmRuns.OnePlaceInEveryRun | router/router_socket/websocket_farm.go:60-456 | over every run of all operations, offers landing at any later time, a socket is in at most one of: pending, alive in exactly one pool, handed out |
| FarmRuns.HandedOnceInEveryRun | router/router_socket/websocket_farm.go:83-175 | so every registered socket is returned to at most one request |
| FarmRuns.FarmOkInEveryRun | router/router_socket/websocket_farm.go:107-184 | over every run each queue, normal or dark, is valid and only ever holds sockets of its own route |
| FarmRuns.GrayImpliesDarkMode | router/api/darklaunch_gray_toggle_resource.go:35-54 | over every run gray testing on implies dark mode on |
| FarmState.GrayFollows | router/api/darklaunch_gray_toggle_resource.go:35-54 | gray testing is what was asked for while some service or ip is dark, and off otherwise; nothing else changes |
| FarmRuns.RoutingFidelity | router/router_socket/websocket_farm.go:154-184 | a request for "/route" or "/route/..." is handed the first alive socket of the queue of that route, in the dark group exactly under gray testing, of the catchall one if there is no such queue, and none exactly if none is alive or the deadline passes among the dead copies in front |
| FarmRuns.NoSlashGetsCatchall | router/router_socket/websocket_farm.go:177-184 | a target without a slash is handed the first alive catchall socket |
| FarmRuns.ChangePlacedIff | router/router_socket/websocket_farm.go:300-456 | an accepted rule change leaves a well-placed socket well-placed if and only if it is not one of the listed per-route cases |
| FarmRuns.StepPlacedIff | router/router_socket/websocket_farm.go:83-456 | the same for any step |
| FarmRuns.CatchallPlacedInEveryRun | router/router_socket/websocket_farm.go:300-456 | in every run catchall sockets are non-dark and dark-catchall ones dark, when rules change only with all offers landed |
| FarmRuns.CarefulRunPlaces | router/router_socket/websocket_farm.go:83-456 | any run whose rule changes avoid the listed cases keeps every socket where the rules want it |
| FarmRuns.NewIpsOnlyRun | router/router_socket/websocket_farm.go:83-141 | in particular with ips only added; then RemoveWebsocket finds the socket |
| FarmRuns.RemoveFindsIff | router/router_socket/websocket_farm.go:83-105 | removing a well-placed socket leaves it alive in no pool if and only if its route is not the literal "*" or it was in none |
| FarmRuns.RevokedSocketEscapesRemoval | router/router_socket/websocket_farm.go:339-358 | a run: a service is marked dark, its socket registers, the service is revoked; the socket goes back to the dark pool and survives its own removal |
| FarmRuns.AddedServiceLeavesSocket | router/router_socket/websocket_farm.go:300-322 | a run: a socket registers, its route becomes a dark service; it stays in the normal pool |
| FarmRuns.StarSocketEscapesRemoval | router/router_socket/websocket_farm.go:83-141 | a run: a socket registered under the route "*" survives its own removal |
| FarmRuns.RemoteAddressIsNeverDark | router/router.go:129-140 | in every run no dark ip has a colon, so a socket registered with host:port is dark exactly by its route |
| RouterSocket.RouterSocket.OnWebsocketClose | router/router_socket/router_socket.go:138-165 | the whole state after a close: status by code, release, removal once |
| RouterSocket.RouterSocket.OnWebsocketText | router/router_socket/router_socket.go:176-197 | the parsed status reaches the client; a malformed message panics |
| RouterSocket.RouterSocket.OnWebsocketBinary | router/router_socket/router_socket.go:200-215 | the bytes reach the client, or a failed write releases the wait |
| RouterSocket.RouterSocket.OnSendOrReceiveDataError | router/router_socket/router_socket.go:237-261 | removal once, 504 or 502, release |
| RouterSocket.RouterSocket.RunForever | router/router_socket/router_socket.go:302-322 | the read loop folds the handlers up to the first close, failure or panic |
| RouterSocket.ReleasedExactlyOnce | router/router_socket/router_socket.go:113-277 | in every interleaving: Done at most once, removal at most once and exactly once when the reader has ended, and the wait released when sender and reader have |
| RouterSocket.TerminalReadReleases | router/router_socket/router_socket.go:138-165 | a close or read error after SetResponse has released the wait and fixes the status of a client that had none |
| RouterSocket.StatusReachesClient | router/router_socket/router_socket.go:176-197 | the status of a response message reaches a client that has none, and nothing else changes |
| RouterSocket.ChunkWrittenOrReleased | router/router_socket/router_socket.go:200-215 | a chunk reaches the client, under 200 without a status; a failed write has released the wait exactly once and closed the session |
| RouterSocket.ReaderPanicsIff | router/router_socket/router_socket.go:176-215 | the reader panics on exactly a chunk before SetResponse and a malformed message after it |
| RouterSocket.LoopIsReader | router/router_socket/router_socket.go:302-322 | the read loop is the reader goroutine of the interleaved machine, for every input |
| RouterSocket.SessionEnds | router/router_socket/router_socket.go:125-135 | a failing ping closes the session and removes the socket once; the farm's stop only closes |
| RouterSocket.UnregisteredCloses | router/router_socket/router_socket.go:138-165 | a deregister socket is not removed when it closes |
| RouterSocket.ResponseOnlyGrows | router/router_socket/router_socket.go:176-261 | nothing sent to the client is revoked by either goroutine |
| RouterSocket.SendFailureReleasesIff | router/reverse_proxy.go:130-172 | a failed send has released the wait if and only if it is not a SendData failure after an error-free read on a live session |
| RouterSocket.SwallowedFailureHappens | router/reverse_proxy.go:149-163 | a run in which the wait is not released until the reader ends |
| RouterSocket.FailedSendReleasesFirst | router/router_socket/router_socket.go:237-261 | a run in which a failing send releases the wait, with an error page, while the reader goes on |
| CrankerProtocol.ToProtocolMessage | protocol/cranker_protocol.go:231-241 | the printing loop computes the printed message |
| CrankerProtocol.ParseRequestDefined | protocol/cranker_protocol.go:198-216 | parsing panics on exactly the messages other than "_3" without two lines or without a space in the first |
| CrankerProtocol.RequestRoundTrip | protocol/cranker_protocol.go:198-241 | print(parse(m)) = m for every message that parses |
| CrankerProtocol.ParsePrintRequest | protocol/cranker_protocol.go:198-241 | parse(print(r)) = r if and only if r is well-formed |
| CrankerProtocol.BuilderRoundTrip | protocol/cranker_protocol.go:152-216 | for every path and query, builder output parses to its method and marker; the destination is cut at the first space or newline, the rest of the request line's lines come before the header lines |
| CrankerProtocol.DestinationWholeIff | router/reverse_proxy.go:258-266 | the destination arrives whole if and only if it has no space and no newline |
| CrankerProtocol.SpaceCutsDestination | router/reverse_proxy.go:258-266 | the input: a path with a space arrives as what is before it |
| CrankerProtocol.HeadDestination | protocol/cranker_protocol.go:198-216 | the same destination is read whatever the headers are |
| CrankerProtocol.MarkerSurvives | protocol/cranker_protocol.go:152-229 | whatever the URI and headers contain, the marker is read right and the message is never the body-ended one |
| CrankerProtocol.ParseBuiltResponse | protocol/cranker_protocol.go:116-118 | what a receiver reads from a built response; the status through decimal printing and parsing |
| CrankerProtocol.ParseResponseDefined | protocol/cranker_protocol.go:273-290 | parsing panics on exactly the responses without two lines or without a space in the first |
| CrankerProtocol.ResponseReencodingProjects | protocol/cranker_protocol.go:273-313 | decoding and re-encoding is a projection |
| CrankerProtocol.ResponseSurvivesBothDecodes | connector/connector_socket.go:160-175 | status, method and URL survive the connector's and the router's decodes |
| HeaderForwarding.SetTargetReqHeaders | router/reverse_proxy.go:182-201 | the exact header text written, and when a body is announced: always with a Content-Length, never with neither that nor a Transfer-Encoding |
| HeaderForwarding.ContentLengthMeansBody | router/reverse_proxy.go:189-199 | a name that is "content-length" but for case announces a body in every iteration order |
| HeaderForwarding.NeitherMeansNoBody | router/reverse_proxy.go:188-199 | neither that name nor "transfer-encoding": no body in any order |
| HeaderForwarding.OnlyTransferEncodingMeansBody | router/reverse_proxy.go:190-199 | only "transfer-encoding", at least once: a body in every order |
| HeaderForwarding.AddProxyForwardingHeaders | router/reverse_proxy.go:203-221 | the forwarding headers, the X- ones only when absent |
| HeaderForwarding.ForwardingAddsIff | router/reverse_proxy.go:203-221 | a line is added if and only if it is the Forwarded line, or an X- line whose header the client has not given with a first value that is not empty |
| HeaderForwarding.ForwardingOfPlainClient | router/reverse_proxy.go:203-221 | a client that gives none gets all five lines, in order, spelled out |
| HeaderForwarding.PutHeadersTo | connector/connector_socket.go:226-245 | the exact header list of the target request |
| HeaderForwarding.CopiedExactly | router/reverse_proxy.go:182-236 | a client line is copied if and only if its name is neither hop-by-hop nor a Connection value |
| HeaderForwarding.CopiedConcat | router/reverse_proxy.go:188-197 | headers are copied one by one, in their order |
| HeaderForwarding.CopiedValues | router/reverse_proxy.go:191-197 | the values of one header are copied one by one, in their order, once each, or none of them |
| HeaderForwarding.SentIff | router/reverse_proxy.go:182-236 | the router appends a line if and only if it is a permitted line of the client or one of its forwarding lines, spelled out |
| HeaderForwarding.SentEndsForwarding | router/reverse_proxy.go:198-221 | for a client that gives none of the X- headers the last five lines appended are the forwarding ones, in order |
| HeaderForwarding.HeadersAtTarget | connector/connector_socket.go:226-245 | for every path and query, the target request's header list: User-Agent, what follows a newline in the request line, what the router appended, in order, Via |
| HeaderForwarding.HeaderFidelityIff | connector/connector_socket.go:226-245 | it is exactly what the router appended between User-Agent and Via if and only if no line behind a newline of the request line has a colon past its start |
| HeaderForwarding.NothingStray | router/reverse_proxy.go:258-266 | so it is for every path and query without a newline |
| HeaderForwarding.NewlineAddsHeader | router/reverse_proxy.go:258-266 | the input: a path with a newline adds a header nobody appended |
| HeaderForwarding.HopByHopStopsIff | router/reverse_proxy.go:182-236 | for every path: a client's line, not one the proxies add nor one read from the request line, is kept out of the target request's header list if and only if its name is empty, spelled as in the set, or a whole Connection value |
| HeaderForwarding.StopsOnlyWhatOught | router/reverse_proxy.go:223-236 | nothing is kept back that is not hop-by-hop, compared without case, or named by an option of Connection |
| HeaderForwarding.SetWithoutCase | router/reverse_proxy.go:55-57 | without case, the router's set holds exactly the hop-by-hop names of the standard |
| HeaderForwarding.OnlyTeIsMissed | router/reverse_proxy.go:55-57 | of the canonical names exactly "Te" is hop-by-hop and not in the set |
| HeaderForwarding.HopByHopReachesIffTe | router/reverse_proxy.go:182-236 | a hop-by-hop line with a canonical name is in the target request's header list if and only if it is "Te" and no Connection value is, or it is read from the request line |
| HeaderForwarding.TeReachesTarget | router/reverse_proxy.go:55-57 | the input: "Te: trailers" is in the target request's header list |
| HeaderForwarding.ListedOptionReachesTarget | router/reverse_proxy.go:230-234 | the input: a header named second in a Connection list is there too |
| HeaderForwarding.BodyTestOrderIff | router/reverse_proxy.go:188-200 | the body test is the same in every iteration order if and only if there is a Content-Length, no Transfer-Encoding, or nothing else |
| HeaderForwarding.BodyTestDependsOnOrder | router/reverse_proxy.go:188-190 | the input: two orders of one map, two answers |
| ConnectorSocket.ConnectorSocket.OnWebsocketText | connector/connector_socket.go:119-153 | the whole state and the calls, in order, after a text, the three ways to panic included |
| ConnectorSocket.FiredIff | connector/connector_socket.go:119-224 | over every life: a target request is started exactly for the first message that parses, if its marker is "_1" or "_2" and its destination parses, and has a pipe exactly for "_1" |
| ConnectorSocket.PanicsIff | connector/connector_socket.go:111-153 | exactly which messages panic a reading socket |
| ConnectorSocket.TextClosesPipeIff | connector/connector_socket.go:119-135 | a later message closes the pipe if its marker is "_3" and does nothing otherwise |
| ConnectorSocket.SealedContent | connector/connector_socket.go:111-135 | once the pipe is closed, or the target stops reading, no event changes what the target has got |
| ConnectorSocket.ConnectorSocket.OnWebsocketBinary | connector/connector_socket.go:111-117 | the payload enters the pipe while it is open and read |
| ConnectorSocket.ConnectorSocket.OnWebsocketClose | connector/connector_socket.go:298-324 | the whole state and the calls after a close |
| ConnectorSocket.CloseAbortsIff | connector/connector_socket.go:312-317 | a close aborts the target request if and only if there is one, it is not complete and the code is not 1011 |
| ConnectorSocket.CompleteIsNeverAborted | connector/connector_socket.go:190-222 | in every run, a request that completed while its socket was open is never aborted |
| ConnectorSocket.CompleteIff | connector/connector_socket.go:190-222 | over every life: the request is complete exactly if the first call of its callback reports success |
| ConnectorSocket.ConnectorSocket.OnWebsocketError | connector/connector_socket.go:329-359 | the whole state and the calls after an error or failed dial |
| ConnectorSocket.ConnectorSocket.RunForever | connector/connector_socket.go:371-391 | the read loop folds the handlers up to the first close, failure or panic |
| ConnectorSocket.StepAsks | connector/connector_socket.go:119-359 | an event asks for a removal exactly when the socket stops being idle, for a replacement exactly when it stops being idle or in backoff |
| ConnectorSocket.CallsCounted | connector/connector_socket.go:119-391 | between any two moments the removals, replacements and retries asked for are as many as the socket has left idleness, its unreplaced state and the state before any retry |
| ConnectorSocket.EveryLife | connector/connector_socket.go:119-391 | over every event sequence: removal exactly once by the end, replacement at most once and when exactly once |
| ConnectorSocket.LoopIsLife | connector/connector_socket.go:371-391 | the read loop reaches the state of the socket's life over the same reads, and makes the same calls in the same order |
| ConnectorSocket.ReadLoopAsksOnce | connector/connector_socket.go:371-391 | for every input one removal and one replacement, now or after a backoff, when the loop has ended; never more |
| SendingLoops.SendRequestOverWebsocket | router/reverse_proxy.go:141-172 | the frames sent and how the loop is left, for every sequence of reads and every point at which the link fails |
| Upload.LoopIsSender | router/reverse_proxy.go:148-166 | frames and outcome of the sending loop are those of the machine's sender |
| Upload.RequestIsSender | router/reverse_proxy.go:113-180 | the whole function with a body: its frames are those of the machine that first sends the head, spelled out and ending in "_1" |
| Upload.HeadParses | protocol/cranker_protocol.go:152-216 | from that head, or the one ending in "_2", the connector reads the method, the destination of path and query, the header lines and the marker |
| Upload.LoopIsRequest | router/reverse_proxy.go:148-166 | the loop is the request goroutine of the router socket: the wait is released by a failed send or read and by nothing else |
| Upload.RequestReleasesIffFailed | router/reverse_proxy.go:113-180 | the same for the whole function, from the socket's registration on |
| Upload.UploadDelivers | connector/connector_socket.go:111-153 | for every head, body, chunking and interleaving: the connector panics if and only if it has read a head whose destination does not parse, and has started the target request if and only if it has read one that does; the target reads a prefix of the body, all of it when the pipe closes, and chunks only meet an open pipe |
| Upload.EagerTargetReadsAll | connector/connector_socket.go:111-135 | a target that takes every write whole has the whole body when the pipe is closed |
| Upload.HeadPanicsIff | connector/connector_socket.go:151-152 | the same in terms of the client's path and query |
| Upload.DecodedEscapePanics | router/reverse_proxy.go:258-266 | the input: the decoded path "/%zz" |
| Url.PathParsesIff | connector/connector_socket.go:151 | a path on the same host parses if and only if it has no control character before the fragment and every '%' of path and fragment starts an escape |
| Url.PlainPathParsesIff | connector/connector_socket.go:151 | in characters: a path without query and fragment parses if and only if no code is below 32 or 127 and two hexadecimal digits stand behind every '%' |
| Url.UsualPathParses | connector/connector_socket.go:151 | every path of letters, digits and "/-._~" parses |
| Upload.NoBodyUpload | connector/connector_socket.go:146-224 | a request without a body is one frame, spelled out and ending in "_2", which fires the target request without a pipe if and only if its destination parses, and panics otherwise |
| SendingLoops.FireRequest | connector/intermediate_request.go:67-129 | the frames sent and how the loop is left, for every sequence of reads and every point at which writes fail, or without an answer |
| Download.LoopIsTarget | connector/intermediate_request.go:104-129 | frames and outcome of the streaming loop are those of the machine's connector |
| Download.FireIsTarget | connector/intermediate_request.go:67-129 | the same for the whole function |
| Download.DownloadDelivers | router/router_socket/router_socket.go:138-261 | for every response, chunking, failure and interleaving of connector, reader and request goroutine: the client has a prefix, is released at most once, by the reader's end or a handled failure of the request and always by either; after a normal close it is left with exactly the target's status and body if and only if no failing send or read of the request was handled |
| Download.NothingLeftToSend | router/router_socket/router_socket.go:138-165 | if the normal close finds the request sent, the client is left with exactly the target's status and body in every continuation |
| Download.SendAfterEndFails | router/reverse_proxy.go:130-172 | once the reader has ended, every further send of the request fails |
| Download.EarlyAnswerGetsErrorPage | router/reverse_proxy.go:130-153 | the input: a run in which the client gets the target's whole response and a 502 page behind it |
| Connector.WebsocketClientFarm.IsSafeToAddWebsocket | connector/ws_cli_farm_conn_info.go:46-53 | never for a deregister URI, else below twice the window |
| Connector.Connector.Start | connector/connector.go:70-86 | the nested loops build the started state |
| Connector.Connector.ConnectToRouter | connector/connector.go:88-124 | one attempt and one dial on the given slot, nothing once shut down |
| Connector.Connector.WhenConsumed | connector/connector.go:93-105 | the closure's whole effect: decrement, check, reconnect, increment |
| Connector.Connector.Deliver | connector/connector_socket.go:111-359 | a socket event and the calls it makes, as one step |
| Connector.Connector.CallShutDown | connector/connector.go:157-174 | the whole state after an undisturbed shutdown |
| Connector.StartFills | connector/connector.go:70-86 | after Start each router has W sockets per listing, and availableConns is W times the routers |
| Connector.DeliverKeepsWindow | connector/connector.go:92-105 | one event changes a URI's idle-or-backoff sockets only by a refused replacement, and then at least 2W are left |
| Connector.WindowInEveryRun | connector/connector.go:70-105 | window conservation: min(kW, 2W) ≤ counted + in backoff ≤ kW in every run before shutdown; availableConns is their sum |
| Connector.NeverRefusesIfListedTwice | connector/connector.go:98-105 | for k ≤ 2 no replacement is refused in any run and availableConns is constant |
| Connector.ThirdListingLosesSocket | connector/connector.go:98-105 | for W > 0 and k > 2 two events after Start make one be refused, and kW − 1 sockets are left |
| Connector.NeverRefusesIff | connector/connector.go:98-105 | over all runs before shutdown the "unexpected error" branch is never taken if and only if W = 0 or every k ≤ 2 |
| Connector.AttemptsInEveryRun | connector/ws_cli_farm_conn_info.go:78-88 | in every run, shutdown included, a slot's counter is the number of its dials since the last event that was a request received by one of its sockets, and an idle or waiting socket's delay is 1 s to 5000 s |
| Connector.RequestResets | connector/connector_socket.go:137-144 | the first message that parses on a reading socket leaves its slot's counter at 1 if the socket is replaced and at 0 if not, says which of the two it is, and changes no other slot |
| Connector.RetryDelay | connector/ws_cli_farm_conn_info.go:86-88 | min(500·2^n, 5,000,000), at least a second from the first attempt on |
| Connector.RetryDelayGrows | connector/ws_cli_farm_conn_info.go:86-88 | the delay never shrinks from one attempt to a later one |
| Connector.RetryDelaySettles | connector/ws_cli_farm_conn_info.go:86-88 | the delay is at its maximum if and only if n ≥ 14 |
| Connector.DelaysSum | connector/connector_socket.go:342-356 | the delays of n ≤ 13 consecutive failures sum to 1000·(2^n − 1) |
| Connector.ShutDownOnlyDeregisters | connector/connector.go:93-174 | once shutting down, the only dials are deregister dials, in router order, and no counter grows, whatever else fires; a finished shutdown stays finished |
| Connector.ShutDownDialsEachRouterOnce | connector/connector.go:157-174 | a whole shutdown dials each router once |
| Connector.WentDownIsARun | connector/connector.go:157-174 | an undisturbed callShutDown is one of those runs |

## Left out

- FarmRuns.OnePlaceInEveryRun: assumes each registration adds a new socket; a socket is an id with its route and ip. Offers land at any later time, but each farm operation, callbacks included, is one step.
- FarmRuns.CatchallPlacedInEveryRun: an offer still in flight while the rules change can land in the pool of the old rules, so placement is stated for rule changes with all offers landed.
- IterableChan.IterableChan.PollTimeout: `patience` stands for the clock; a poll that blocks and receives an offer made meanwhile is the same poll started after that offer.
- IterableChan.IterableChan.constructor: a negative capacity, on which the source panics, is not representable.
- FarmState.Farm: the queues in the maps are values, so two names for one queue object are not modelled; the pools never share one.
- Connector.WindowInEveryRun: a consume step is atomic and runs after `Start` has returned; a consumption before the first `addWebsocket` of a URL is a no-op decrement in the source and is not modelled.
- Connector.Connector.CallShutDown: a second shutdown while the first is under way.
- Connector.Connector: the attempt counters of the `ConnectionInfo` objects are one sequence indexed by slot.
- Connector.Connector.Deliver: the counters are unbounded integers, not int32 and int64; a panic stops its socket, not the process with the other sockets.
- Download.DownloadDelivers: the client's own limits on status codes (net/http panics on codes outside 100 to 999) and the websocket read limit.
- SendingLoops.FireRequest: the connector socket's session is not nil while it responds; a link that has failed once stays failed.
- ConnectorSocket.ConnectorSocket.OnWebsocketClose: what cancelling does to a target request already under way is only the flag `aborted`.
- HeaderForwarding.SetTargetReqHeaders: a header map is one of its iteration orders; `Values` and `Absent` look names up as they are spelled, which is canonical where net/http has stored them.
- HeaderForwarding.PutHeadersTo: `Header.Add` canonicalises names, and the client of net/http takes only the first User-Agent, here the empty one, and writes Host, Content-Length, Trailer and Transfer-Encoding itself; the pairs are the arguments of `Add`.
- CrankerProtocol.ParseBuiltResponse: response headers, which no decode keeps, have no round trip.
- `DeregisterSocket`, `removeWebsockets` and the reporting functions over both groups of pools (`combineSyncMap`).
- The `requestNum` counter, which the router's error path never decrements.
- Plugins, interceptors, CORS, REST resources, health reports, logging, ping timers, resolving a parsed destination against the target's URL, TLS, dialing and upgrading.
- Url.Parses: a character stands for a byte, as everywhere in the messages.

- Nil sockets passed to a queue, which both operations ignore.
