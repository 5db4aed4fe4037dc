# Neutun, verified

A Dafny model of the Neutun reverse tunnel and proofs about it. The server takes TCP connections
from remote peers, multiplexes their bytes over one websocket to a client, and the client opens
local connections for them. `dafny verify dfyconfig.toml` checks everything.

## What is modelled

- **The tunnel.** Its tasks run concurrently and share two stream maps and several channels, so the
  protocol is a step system: `TunnelState` has the server's tasks per stream and per client, the
  client's handler, close tasks, local readers and local writers, with a program counter each, both
  directions of the websocket (`Pipe`), and sockets as byte sequences. A step is what one task does
  between two points at which another can run. `Run` applies any sequence of enabled steps, and a
  state is `Reachable` if some run leads to it. `TunnelServer`, `TunnelClient`, `TunnelFlow`,
  `TunnelReturn` and `TunnelTraffic` each hold one part of the inductive invariant, which
  `TunnelInvariant` puts together; `TunnelInputs` ties the recorded histories to the actions of the run;
  `TunnelTheorems`, `TunnelSignals`, `TunnelReplies`, `TunnelDelivery`, `TunnelCauses`,
  `TunnelRegistration` and `TunnelLedger` state the results, and `TunnelWitness` builds runs that
  show them to be exact.
- **The tunnel's loops.** `RemoteSink`, `ServerTask` and `Introspect` write the loops over one
  socket as the methods they are, with everything other tasks may do as a parameter. `LoopsAndSteps`
  shows that the tasks of the step system meet the contracts of those loops.
- **The registry of clients.** `ConnectedClients` is the class of two maps, proved against its
  history. `RegistryRuns` interleaves additions and removals at the granularity of one map access.
  `ServerRuns` takes each handshake, pong and removal as one step.
- **Admission and routing.** `Admission` decides client hellos, `ReconnectToken` issues and checks
  tokens, `Routing` goes from a Host header (section 7.2 of RFC 9110) to the lookup key.
- **The codec.** `ControlPacket` has the wire form, `Utf8` the text of tokens (section 3 of RFC
  3629, with the lossy decoder), `Projection` what a mixed packet log means to one stream.

## Standing assumptions

- Client ids and stream ids are fresh when they are generated.
- Channels and the websocket are first-in-first-out, and only data frames appear on the websocket.
- `close_channel` makes every later send fail and keeps what is queued; dropping a receiver closes
  its channel and discards what is queued.
- The configuration does not change. Dots and colons are not alphanumeric characters.
- Signatures cannot be forged: a token with a valid signature under the server's key carries it on a
  text that the server signed (`ReconnectToken.Unforged`). In `ServerRuns` it signed nothing before
  the run.
- Clocks, random names, the HTTP parser and the results of reads, writes and connection attempts are
  parameters or free choices.

## What turned out not to hold

- A stream's local connections do not always get all the data the client has taken: after a refusal
  the client goes on to open a new local connection for later data of the same stream.
  `RefusalLeavesGap` is such a run, for every stream and any two pieces of data. With the handler
  idle, what the connections were fed is what was taken if and only if no refusal was sent for the
  stream (`LocalDelivery`); without one, every byte read from the remote socket is accounted for
  from end to end (`RequestDelivery`).
- A pong adds its client again unconditionally, so a pong processed after that client's removal can
  put two clients of one host into the registry. `LatePongBreaksAgreement` gives every such run,
  `EveryServerCanDisagree` shows that one exists on every server that admits any named sub-domain, and
  `AddAgreesIff` says exactly which additions are harmless. Without late pongs the indexes agree
  (`IndexAgreement`).
- A removal checks the host entry and drops it in two accesses. `StaleCheckEvictsNewcomer` is a run
  in which the drop hits another client. It does so exactly if another client was put under the host
  since the check and nothing has changed that again (`DropHitsOtherIff`).
- A local reader whose socket ends takes its stream off the map, but the handler inserts a connection after
  its reader has started: a connection that ended before its insertion is mapped with nobody reading
  it. `EndedIsUnmappedIff` says that this is the only way.
- The split of a host name depends on the order of the allowed hosts exactly when one of them is a
  sub-domain of another (`SplitIgnoresOrderIff`); the lookup key never does (`KeyIgnoresOrder`).
- An admitted name is not reachable when its domain has a colon, when the name is itself an allowed
  host, or when the sub-domain is the control server's and the list of allowed hosts has none before
  the domain that the domain is a sub-domain of (`AdmittedIsReachableIff`).
- The comment at neutun_server/src/auth/client_auth.rs:249-250 leaves reconnecting to reconnect
  tokens. The code never issues one: only anonymous clients get them, and only a token makes a client
  anonymous (`AdmissionClosure`).

## Model

| member | source | states |
|---|---|---|
| Utf8.DecodeEncode | neutun_lib/src/lib.rs:211 | Token text that was turned into UTF-8 comes back unchanged from the lossy decoder |
| Utf8.ScanEncoded | neutun_lib/src/lib.rs:211 | The decoder reads exactly one well-formed character, whatever follows it |
| Utf8.LossyExact | neutun_lib/src/lib.rs:211 | Bytes whose decoding has no replacement character are exactly the encoding of that text: whatever is not well-formed leaves a trace |
| Utf8.EncodeSamples | neutun_lib/src/lib.rs:175 | The encodings that section 7 of RFC 3629 lists |
| Utf8.DecodeSamples | neutun_lib/src/lib.rs:211 | A cut-off character becomes one replacement character, a surrogate three |
| ControlPacket.WireSamples | neutun_lib/src/lib.rs:167-180 | The wire form byte by byte for one packet of each kind |
| ControlPacket.RoundTrip | neutun_lib/src/lib.rs:167-219 | Every packet, with empty data and empty tokens too, decodes to itself, and takes at least nine bytes |
| ControlPacket.DecodesToIff | neutun_lib/src/lib.rs:192-216 | Exactly which messages decode to a packet: its wire form alone for data, whatever begins with it for packets without a body, and for a token any other stream id followed by bytes that read as it |
| ControlPacket.NormalForm | neutun_lib/src/lib.rs:167-219 | Re-serialising an accepted message is idempotent, equals it for data, and is its nine-byte header for packets without a body |
| Projection.DecodeEncodeAll | neutun_lib/src/lib.rs:167-219 | A sequence of packets survives the websocket |
| Projection.Multiplex | neutun_lib/src/lib.rs:163-219 | However one stream's packets are interleaved with others, encoding, decoding and projecting gives back exactly those packets and bytes |
| Pipe.SendValid | neutun/src/main.rs:487 | A send appends to the log of an open channel and is refused by a closed one; first-in-first-out is kept |
| Pipe.PushValid | neutun_server/src/control_server.rs:281 | Serialising a packet onto the websocket keeps it in flight, in order |
| Pipe.ReceiveValid | neutun/src/main.rs:648 | The peer decodes exactly the oldest packet in flight |
| Pipe.AbortValid | neutun_server/src/control_server.rs:282-291 | When the writer returns, what it held and what was queued are the lost tail of the log, only what is on the websocket is still in flight, and nothing is accepted any more |
| Pipe.ShutValid | neutun_server/src/connected_clients.rs:52 | A closed channel accepts nothing more and loses nothing that it holds |
| Pipe.Conserves | neutun_server/src/control_server.rs:273-294 | On one link and for one stream: sent = taken + in flight + a tail that is empty unless the channel was closed |
| RemoteSink.NothingAfterTheEnd | neutun_server/src/remote.rs:313-345 | Messages after the first terminator change neither body nor response |
| RemoteSink.BodyAppend | neutun_server/src/remote.rs:316-332 | One more message adds to the body only if it is data before any terminator; the first terminator alone fixes the response |
| RemoteSink.RemoteSocket.WriteAll | neutun_server/src/remote.rs:347 | A write adds all of its bytes or, if it fails, a prefix of them |
| RemoteSink.FinishedServesAll | neutun_server/src/remote.rs:334-344 | A finished task has written what all posted messages call for: those left in the queue change nothing |
| RemoteSink.ServeNext | neutun_server/src/remote.rs:316-352 | Each message taken keeps the socket at the data before the first terminator, then its response, or a prefix if the write fails |
| RemoteSink.NeutunStream | neutun_server/src/remote.rs:307-354 | While other tasks send and close, the loop writes the data before the first terminator, then at most one error response, then nothing; it waits only when it has served everything; the stream leaves the map exactly when the task finishes, not when a data write fails |
| ServerTask.ClientChannel.OthersRun | neutun_server/src/connected_clients.rs:51-52 | Other tasks neither reopen a closed channel nor change what it holds of this stream |
| ServerTask.Try | neutun_server/src/remote.rs:296-302 | One more attempt keeps the channel's share of a stream a prefix of what was tried, all of it while the channel is open |
| ServerTask.ProcessTcpStream | neutun_server/src/remote.rs:253-304 | The loop tries Init, Data..., and End exactly at end of input, carrying exactly the bytes read, each packet the data of one read; it ends for the reason its socket and the registry give in the turn it stops at; the channel accepts a prefix, all of it unless closed, whatever other tasks do meanwhile; a client that is gone is reported to the stream's queue, as its last message, unless somebody else closed that |
| LoopsAndSteps.TaskMeetsLoopContract | neutun_server/src/remote.rs:253-304 | After every run of the tunnel, what a reading task has tried to send, what its reads returned, what was accepted and why it ended are as the loop's contract says |
| LoopsAndSteps.SinkMeetsLoopContract | neutun_server/src/remote.rs:307-354 | In every reachable state of the tunnel, a writing task has served its queue as the loop's contract says |
| TunnelServer.TaskKeepsGrammar | neutun_server/src/remote.rs:253-304 | Each step of a stream's task keeps every stream's packets a prefix of Init, Data..., End, with the bytes read so far |
| TunnelServer.GrammarPrefix | neutun_server/src/remote.rs:253-304 | Failed sends only cut a suffix off the grammar |
| TunnelServer.DownSends | neutun_server/src/remote.rs:255-302 | A task step sends exactly the packet its position calls for and keeps both links' order |
| TunnelClient.TakenFollowsGrammar | neutun/src/main.rs:512-541 | What the client has taken follows each stream's grammar |
| TunnelClient.NothingAfterEnd | neutun/src/main.rs:663-680 | After a stream's end the client takes nothing more of it |
| TunnelClient.HandlerTakes | neutun/src/main.rs:648-694 | Taking a packet keeps the client's map sane: data never belongs to a stream that ended |
| TunnelClient.HandlerMoves | neutun/src/main.rs:687-709 | The lookups, the insertion after the spawn and the send keep one live reader per stream |
| TunnelClient.ConnectKeepsClient | neutun/src/local.rs:27-84 | Opening a local connection, or failing to, keeps one live reader per stream |
| TunnelClient.CloserKeepsClient | neutun/src/main.rs:669-678 | The delayed close of a stream never strands a live reader of it |
| TunnelClient.LocalKeepsClient | neutun/src/local.rs:116-132 | Removal by a local reader at end of input takes nobody else's connection off the map |
| TunnelClient.OneReader | neutun/src/local.rs:78-119 | Two unfinished readers of one stream are the same reader |
| TunnelFlow.HandlerKeepsFlow | neutun/src/main.rs:648-709 | Each handler step keeps: fed + in hand = taken, unless data was refused |
| TunnelFlow.ForwardKeepsFlow | neutun/src/local.rs:145-163 | Each step of a local writer keeps: written + queued = fed, or a prefix once it has ended |
| TunnelFlow.LocalKeepsAnswers | neutun/src/local.rs:128-132 | Sending what a local reader holds keeps a stream's answers in connection order |
| TunnelFlow.OneHolder | neutun/src/local.rs:110-135 | Only the newest local connection of a stream can hold unsent bytes |
| TunnelReturn.PumpOk | neutun_server/src/remote.rs:313-352 | A step of the sink task keeps: the socket has the body and the response of the messages taken, or a prefix after a failed write |
| TunnelReturn.DeliverKept | neutun_server/src/control_server.rs:264-268 | Delivering a message changes its own stream only, and accounts for it there |
| TunnelReturn.ReaderKeepsReturn | neutun_server/src/control_server.rs:212-270 | Each step of the reader keeps, for the data of each stream: posted + dropped + held = taken |
| TunnelReplies.ReaderReplies | neutun_server/src/control_server.rs:242-268 | Each step of the reader keeps, for the messages of each stream, refusals included: posted, then held, is what was taken, in order, while the stream's queue is open |
| TunnelTraffic.ReaderTakesTraffic | neutun_server/src/control_server.rs:234-260 | What the reader takes is data or a refusal of a known stream, or a bare pong |
| TunnelTraffic.HandlerTakesKnown | neutun/src/main.rs:648-680 | What the handler takes is a packet the server sends, about a stream the server knows |
| TunnelInvariant.StepKeeps | neutun_server/src/control_server.rs:193-294 | Every step of every task, on either side, keeps the whole invariant |
| TunnelInvariant.ReachableInv | neutun/src/main.rs:487-541 | The invariant holds in every reachable state |
| TunnelInputs.ReadsAreInputs | neutun/src/local.rs:110-132 | What was recorded as read on either side is, packet by packet, what the reads of the run returned |
| TunnelInputs.RemoteReadAt | neutun_server/src/remote.rs:270-294 | Each read from a remote socket has its place in what was read, with its stream and all its data |
| TunnelInputs.LocalReadAt | neutun/src/local.rs:111-128 | The same for each read from a local socket |
| TunnelInputs.SentIsSaid | neutun/src/main.rs:654-708 | The packets sent on either link are exactly what the steps of the run call for, in order: a pong for a ping taken, a refusal for a failed connection and for data without one, data for a read, and nothing else |
| TunnelCauses.EndFollowsSocket | neutun_server/src/remote.rs:270-288 | A stream's end packet is sent if and only if its remote socket reached the end of its input, once its task has returned; a read error ends the task at once and without one; otherwise a task returns only after closing its stream's queue |
| TunnelCauses.ReaderFollowsSocket | neutun/src/local.rs:111-132 | A local reader goes on to unmap its stream if and only if its socket reached the end of input; it ends for no other reason than that, a read error, or a tunnel that takes nothing more |
| TunnelRegistration.RegisteredIff | neutun_server/src/connected_clients.rs:51-67 | Whatever the interleaving, the client is registered if and only if every removal of the run was followed by a pong |
| TunnelRegistration.FailedSendRemoves | neutun_server/src/remote.rs:296-302 | A task holding something for a closed channel does not go on before it has removed its client |
| TunnelRegistration.GoneStopsReading | neutun_server/src/remote.rs:260-267 | While its client stays unregistered, a stream's task finishes the read it is waiting for, if any, and reads no more |
| TunnelLedger.SocketsHoldWrites | neutun_server/src/remote.rs:321-347 | A remote or local socket holds exactly as many bytes as the writes of the run let through |
| TunnelLedger.LossNeedsFailure | neutun_server/src/control_server.rs:279-291 | An accepted packet is lost only if a write to the websocket failed |
| TunnelLedger.TokenIsLast | neutun/src/main.rs:657-659 | The client keeps the token of the last ping it took that carried one |
| TunnelLedger.EndedIsGone | neutun_server/src/control_server.rs:224-231 | Once the reader has stopped the client is unregistered and its channel closed; once the writer has ended nothing is left to send; a stream is in the server's map exactly until its sink task has left |
| TunnelTheorems.RequestConservation | neutun_server/src/remote.rs:253-304 | Bytes that the reads of the run got from a remote socket = taken by the client + in flight + a tail empty unless the channel was closed + what the task holds |
| TunnelDelivery.SkippedIffRefused | neutun/src/main.rs:700-708 | With the handler idle, some data of a stream was put aside if and only if a refusal was sent for it |
| TunnelDelivery.LocalDelivery | neutun/src/main.rs:680-709 | Without a refusal for the stream, its local connections, oldest first, were fed exactly the data taken but for what is in hand; with the handler idle, if and only if there was none; sizes add up in any case |
| TunnelDelivery.RequestDelivery | neutun/src/main.rs:680-709 | Without a refusal: bytes that the reads of the run got from the remote socket = fed to local connections + in hand + in flight + a tail empty unless the channel was closed + held by the reading task; so what was fed is a gap-free, duplicate-free prefix |
| TunnelDelivery.LocalSocketGetsFed | neutun/src/local.rs:145-163 | A local socket has a prefix of what its connection was fed; unless a write failed the rest is in its queue, and a socket closed in order got everything; a close message is the last of its queue |
| TunnelDelivery.RequestReachesSockets | neutun/src/local.rs:145-163 | Without refusals and failed local writes, the same equation with the bytes in the local sockets and their queues |
| TunnelDelivery.NothingFedAfterClose | neutun/src/main.rs:669-678 | A connection told to close is fed nothing more on any continuation, and if closed in order has exactly what it was fed before |
| TunnelDelivery.CloseTaskTells | neutun/src/main.rs:669-677 | Once a close task has stopped waiting, the connection it found has been told to close, or its writer had ended |
| TunnelDelivery.EndedIsUnmappedIff | neutun/src/local.rs:82-91 | A connection whose socket has ended is off the map for good once its reader unmaps it, unless the handler has opened it and not inserted it yet: exactly then it can still be mapped |
| TunnelWitness.RequestIsAnswered | neutun/src/local.rs:100-164 | For every stream, request and answer there is a run in which the local socket has got exactly the request and the remote socket exactly the answer |
| TunnelWitness.RefusalLeavesGap | neutun/src/main.rs:687-708 | For every stream and any two pieces of data, a run that feeds the second without the first, with nothing in flight |
| TunnelWitness.GrammarIsExact | neutun_server/src/remote.rs:253-304 | A sequence of packets is what some run queues for a stream if and only if it follows the grammar |
| TunnelTheorems.StreamGrammar | neutun_server/src/control_server.rs:193-208 | The packets of a stream, queued and taken, are prefixes of Init, Data..., End, each Data of 1 to 1024 bytes, taken in order |
| TunnelTheorems.OneLocalReader | neutun/src/local.rs:78-119 | At most one unfinished task reads local connections of a stream |
| TunnelTheorems.AnswersInConnectionOrder | neutun/src/local.rs:110-135 | The bytes that the reads of the run got from successive local connections of a stream are never mixed, and each connection's are those of its own reads |
| TunnelTheorems.ResponseConservation | neutun_server/src/control_server.rs:242-268 | Until a stream is over: bytes that the reads of the run got locally = written to the remote socket + queued + in the reader's hands + in flight + a tail empty unless the channel was closed + unsent, for every interleaving of streams |
| TunnelTheorems.RemoteGetsPrefix | neutun_server/src/remote.rs:307-353 | In any case the remote socket got a prefix of what the reads of the run got locally, then at most one of two error responses |
| TunnelTheorems.HandlerExpectsAll | neutun/src/main.rs:650-662 | The client never meets an undecodable or unexpected packet |
| TunnelTheorems.ReaderExpectsAll | neutun_server/src/control_server.rs:234-260 | Nor does the server |
| TunnelTheorems.DirectionDiscipline | neutun/src/main.rs:654-661 | Packet kinds per direction, streams known to the server, one pong sent per ping handled and none more seen, no token for a client that is not anonymous |
| TunnelTheorems.ContinuationIrreversible | neutun_server/src/connected_clients.rs:51-52 | No continuation reopens a channel, brings a stream back or revives a close task |
| TunnelTheorems.StreamReclaimed | neutun/src/main.rs:663-696 | Once a stream's close task has finished, the stream is never again in the client's map |
| TunnelTheorems.RemovedClientIsSilent | neutun_server/src/connected_clients.rs:52 | After a client's removal nothing is ever accepted for it, even if a late pong registers it anew; its peer sees an in-order prefix of what was accepted before |
| TunnelTheorems.StreamLeavesForGood | neutun_server/src/remote.rs:342 | A stream id removed from the server's map never returns |
| TunnelSignals.NotFoundOnlyAfterRemoval | neutun_server/src/remote.rs:262-266 | A remote stream is told that its client is gone only after the client's channel was closed, by a task that is done |
| TunnelSignals.RefusalsHaveReasons | neutun/src/main.rs:700-708 | A stream is told that its tunnel was refused only if the client said so, and the client says so for all data it puts aside; data in hand when its handler stops is neither handed on nor put aside |
| TunnelReplies.StreamIsTold | neutun_server/src/control_server.rs:242-268 | A stream's queue is told a prefix of what its client sent for it, data and refusals in order and nothing else; all of it but the message in the reader's hands while the queue is open |
| TunnelReplies.RefusalReachesStream | neutun_server/src/control_server.rs:247-268 | A stream is told of a refusal only if the server took one for it, and every refusal taken reaches the stream unless its queue is closed |
| TunnelReplies.SocketIsTold | neutun_server/src/remote.rs:319-328 | The socket gets the refused response only if its first end was a refusal of the client, the not-found response only if it was the client's removal, and neither before |
| TunnelSignals.OneCloserPerEnd | neutun/src/main.rs:663-679 | A close task exists for a stream if and only if its end was taken, and then exactly one |
| TunnelSignals.ClosedOnlyAfterEnd | neutun/src/main.rs:669-678 | No local connection is told to close before its stream has ended |
| ConnectedClients.HostsReflectHistory | neutun_server/src/connected_clients.rs:51-67 | `hosts[h]` is d if and only if the last addition for h was of d and no later removal had that host and id |
| ConnectedClients.ClientsReflectHistory | neutun_server/src/connected_clients.rs:97-102 | `clients[id]` is d if and only if the last operation on id was the addition of d |
| ConnectedClients.ReplayKeyed | neutun_server/src/connected_clients.rs:97-102 | Every entry sits under its own id and its own full host |
| ConnectedClients.RemovalSparesOthers | neutun_server/src/connected_clients.rs:54-63 | A removal taken as a whole leaves every other client's host alone |
| ConnectedClients.Connections.Add | neutun_server/src/connected_clients.rs:97-102 | Both maps after an addition, in step with the history |
| ConnectedClients.Connections.Remove | neutun_server/src/connected_clients.rs:51-67 | Channel closed, id gone, host gone only if it is the client's own, in step with the history |
| ConnectedClients.Connections.Get | neutun_server/src/connected_clients.rs:73-78 | Finds whom the history put there last, and nobody exactly when nobody holds the id |
| ConnectedClients.Connections.FindByHost | neutun_server/src/connected_clients.rs:80-82 | The same for a host |
| ConnectedClients.Connections.FindWildcard | neutun_server/src/connected_clients.rs:84-91 | Some registered wildcard client of the domain, or nobody if there is none, for any scan order |
| RegistryRuns.EntriesAreLive | neutun_server/src/control_server.rs:212-258 | With every map access a step of its own, each entry is a client whose task has not finished its final removal, under its own key |
| RegistryRuns.NoResurrection | neutun_server/src/connected_clients.rs:51-67 | Once it has, the client's channel is closed and the client is never again in either map |
| RegistryRuns.HostFollowsRun | neutun_server/src/connected_clients.rs:51-67 | At the end of any interleaved run a host is with whoever was put there last, if nothing was dropped there since, or with whoever had it if no step touched it |
| RegistryRuns.DropHitsOtherIff | neutun_server/src/connected_clients.rs:56-63 | Over any run from the check to the drop, the drop takes another client's entry if and only if another client was put under the host meanwhile and nothing changed that again |
| RegistryRuns.StaleCheckEvictsNewcomer | neutun_server/src/connected_clients.rs:56-63 | For any two clients of one host, a run in which a served client loses its host to a stale check |
| Routing.ValidateHostPrefix | neutun_server/src/remote.rs:135-152 | The loop computes the specified split, with all indexing in bounds |
| Routing.ValidateExact | neutun_server/src/remote.rs:135-152 | prefix + "." + domain is the host and the domain is the first allowed host that fits; no split if and only if none fits |
| Routing.KeyIgnoresOrder | neutun_server/src/remote.rs:71 | The key looked up is the same for every order of the allowed hosts |
| Routing.SplitIgnoresOrderIff | neutun_server/src/remote.rs:138-149 | The split is the same for every reordering of the list if and only if no allowed host is a sub-domain of another |
| Routing.OverlapMakesOrderMatter | neutun_server/src/remote.rs:138-149 | Of overlapping allowed hosts, putting one or the other first splits some name differently |
| Routing.CapturedIff | neutun_server/src/remote.rs:138-149 | The name of a dot-free sub-domain is split at its domain, unless a host that the domain is a sub-domain of comes before the domain in the list |
| Routing.RouteExact | neutun_server/src/remote.rs:48-80 | Each answer by the host alone: greeted iff an allowed host, invalid iff neither that nor a sub-domain of one, sent to the control server iff under its name in the first fitting domain, else looked up under its whole name with that domain for the wildcard |
| Routing.FullHostInjective | neutun_server/src/connected_clients.rs:16-18 | Dot-free sub-domains and their domains are determined by the full host |
| Routing.ReachesLookupIff | neutun_server/src/remote.rs:48-74 | Exactly when a request for a name, with or without a port, reaches the lookup of that name, then with the first fitting allowed host as its domain |
| ReconnectToken.IssuedVerifiesIff | neutun_server/src/auth/reconnect_token.rs:30-53 | An issued token gives back its payload if and only if it has not expired |
| ReconnectToken.VerifiedWasIssued | neutun_server/src/auth/reconnect_token.rs:38-53 | Whatever token is shown, one that verifies gives back a payload issued under this key that has not expired |
| ReconnectToken.ForeignTokenRejected | neutun_server/src/auth/reconnect_token.rs:42-44 | A token issued under any key for a payload this server never issued is rejected for its signature |
| Admission.AdmittedMeans | neutun_server/src/auth/client_auth.rs:33-166 | An admitted client passed every check of its way in: key, clean, unblocked and free name, allowed domain, wildcard claim; or a token that verifies |
| Admission.CleanHasNoDot | neutun_server/src/auth/client_auth.rs:222-234 | A sanitised sub-domain has neither dots nor colons |
| Admission.AdmittedIsReachableIff | neutun_server/src/auth/client_auth.rs:222-245 | Exactly which admitted clients are looked up under the key they registered, for any list of allowed hosts |
| ServerRuns.AdmissionClosure | neutun_server/src/auth/client_auth.rs:49-165 | In every run no ping carries a token, and every registered client passed the key check with a clean, unblocked sub-domain and an allowed domain |
| ServerRuns.NeverReservedByOther | neutun_server/src/auth/simple_auth.rs:25-28 | The collision branch of the key check is never taken |
| ServerRuns.HelloAdmittedIff | neutun_server/src/auth/client_auth.rs:214-288 | In any run a hello without a token is admitted if and only if it shows the key, asks for a clean, unblocked name in an allowed domain and claims no host or wildcard that is held; then under exactly that name |
| ServerRuns.HelloRejectedAs | neutun_server/src/auth/client_auth.rs:126-152 | Which reply turns such a hello away: invalid iff the name is not clean, in use iff it is clean but blocked or held, failed authentication iff only the key is wrong |
| ServerRuns.HelloRefusedOutright | neutun_server/src/auth/client_auth.rs:38-77 | The reply to a hello that does not parse, shows no key or asks for a domain that is not allowed |
| ServerRuns.TokenReconnects | neutun_server/src/control_server.rs:125-137 | A client that was sent a token gets its id and sub-domain back with it if and only if it has not expired, two minutes after, and no other client holds the wildcard it claims |
| ServerRuns.AddAgreesIff | neutun_server/src/connected_clients.rs:97-102 | An addition keeps the two maps in agreement if and only if the client is registered already or claims nothing that is held |
| ServerRuns.IndexAgreement | neutun_server/src/auth/client_auth.rs:245-285 | Without late pongs `hosts` is the image of `clients`, hosts are not shared, and a domain has one wildcard client at most |
| ServerRuns.LatePongBreaksAgreement | neutun_server/src/control_server.rs:255-258 | A removal, a successor on the same host and a late pong leave two clients on one host |
| ServerRuns.EveryServerCanDisagree | neutun_server/src/control_server.rs:255-258 | Such a run exists on every server that admits a named sub-domain |
| ServerRuns.RoutingIsDeterministic | neutun_server/src/connected_clients.rs:84-91 | With the indexes in agreement the routed client does not depend on the scan order |
| ServerRuns.RegisteredClientIsServed | neutun_server/src/remote.rs:48-100 | End to end: exactly which registered clients' names are looked up as registered, and those requests go to that very client |
| ServerRuns.WildcardIsServed | neutun_server/src/remote.rs:73-80 | A request for a name nobody holds is handed to the registered wildcard client of the first allowed host that fits the name, and to nobody if and only if there is none |
| ServerRuns.ServedByNameMatches | neutun_server/src/remote.rs:74-76 | Whoever is found under a name has that sub-domain and domain, even with late pongs |
| Introspect.ForwardToLocalTcp | neutun/src/local.rs:138-164 | The copies are exactly the bytes written, but for the piece of a failed write, and if none fails they are the pieces of the queue one by one, up to its close message or its end |
| Introspect.PayloadIsPieces | neutun/src/local.rs:145-155 | A queue pays out exactly the pieces before its first close message, all of them and in order, or all pieces if it has none |
| Introspect.Collect | neutun/src/introspect/mod.rs:122-128 | Collecting is independent of how the bytes were cut into chunks |
| Introspect.Requests.CollectStream | neutun/src/introspect/mod.rs:113-192 | The stored request is every byte collected, with the bodies after the heads; nothing is stored without a complete head |
| Introspect.Requests.ReplayRequest | neutun/src/introspect/mod.rs:274-303 | A replay queues the whole stored request as one message, if it exists and a connection opens |
| Introspect.RecordAndReplay | neutun/src/introspect/mod.rs:122-141 | Whatever the chunks, what is stored is what was written, short at most of the piece whose write failed, and a replay writes exactly that to a fresh connection, or a prefix if a write fails again |

## Left out

- Several clients on one server at the level of streams: the tunnel model has one tunnel connection. The server's stream map is shared by all clients and a client's stream map outlives its tunnel connection; neither is modelled. The registry models have any number of clients.
- Admission.AuthClient: reads the registry once, and the tunnel's removal of a client is one step; only `RegistryRuns` has one step per map access. That the first client to ask for a host gets it under all interleavings is not claimed, because the check and the addition are separate steps.
- Liveness: nothing says that a step is eventually taken. In particular a server stream stays in its map after a failed write, and a local end of input sends nothing to the server.
- Real time: the delayed close, the ping interval and token expiry are free delays or a clock argument.
- Sockets, TLS, websocket frames other than data, HTTP parsing and the search for the Host header, IPv6 hosts, `X-Forwarded-For`.
- JSON, base64 and HMAC are abstract functions; the random id encodings are opaque.
- Other server instances: a lookup of one always answers that the host is not served.
- The other result of the client's websocket writer, the end of its queue: the connection's own sender is alive as long as the writer.
- `update_host`, `client_for_host` and `get_all_clients` of the registry, the list of taken names, blocked addresses.
- The tunnel model takes a ping's reconnect token as given; `ServerRuns` computes it.
- The inspector's parsed headers, status and timestamps, and its pages.
- Command line, configuration and session files (the last session is saved with control port 0), daemon, updater, dashboard.
