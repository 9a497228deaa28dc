# Zeronet: a verified model of the peer tunnel and its controller

Zeronet connects nodes by encrypted UDP tunnels. A node runs a three-state Noise IK machine per remote peer, driven
by packets from the tunnel device, by datagrams and by three timers; a controller hands out overlay addresses, keeps
the table of peers and tells every connected node which other nodes are connected. This project states what those
parts do and proves what they promise.

Where the original updates fields, arrays, maps or lists in place, there is a class or a method that does the same,
and its contract ties the new state to a function of the old one; what the system promises is then proved of those
functions, over all runs.

| files | content |
|---|---|
| `PeerMachine`, `PeerEffects`, `PeerRuns`, `Peer` | one remote peer: each handler as a function from state to outcome, what each does told field by field, the invariant of a started peer, any sequence of handlers, and the class whose methods do the same step by step |
| `Symbolic`, `Network`, `KeyAgreement`, `Nonces`, `Delivery`, `Waiting`, `NodeEffects`, `FirstSession`, `FirstDelivery`, `Crashes`, `Fifo`, `LinkSession` | two nodes over a network that loses, reorders and duplicates datagrams: key agreement, nonces, payload integrity, outbound order, how a packet is delivered and how a node crashes; then the same over a link in order |
| `UpdateStream`, `StreamProgress`, `StreamSettling`, `StreamDanger`, `UpdateServer` | the update streams under all interleavings: what each client is sent, when the streams get stuck or crash and when they settle, from which states they still can go wrong, and the controller's code |
| `Header`, `Bytes` | the 16-byte datagram header |
| `Custody`, `Blocks`, `InboundPath`, `OutboundPath`, `InboundEffects`, `OutboundEffects`, `InboundBuffers`, `OutboundBuffers` | pooled buffers: ownership, clearing, where each datagram and packet goes, and the slices that rely on them |
| `Netip`, `Ipam` | IPv4 prefixes and first-fit allocation |
| `Registry`, `RegistryEffects`, `RegistryRuns`, `RegistryServer`, `Exhaustion`, `Races` | the peer table, login, registration and deletion as interleaving reads and writes, and when a registration fails |

## How it is modelled

- A handler or timer callback of a peer is one atomic step, and so is an iteration of its handshake loop. An iteration
  of a data loop is two: the loop takes a packet from its channel at any time and holds it until it is granted the
  lock, so that a packet in hand outlives a reset, which empties the channels only. A step is blocked while its
  channel is empty or full, its lock is taken or its timer is not armed. A panic or nil dereference is a crash, and a
  run ends there.
- Cryptography is symbolic (The Noise Protocol Framework, revision 34, sections 5.1, 5.2, 7.5 and 11.4): an ephemeral
  is a fresh name, a transport key is the pair of ephemerals of its session and a direction, and a sealed box opens
  with exactly the key and nonce that made it.
- Ghost histories (messages sent to a node, installed sessions, sealed boxes, accepted packets and what became of
  each, in hand included) are part of the system state of `Network`, so that the properties can speak of them.
- The controller's streams are a step relation over any number of peers; a send on an unbuffered channel is a step of
  its own that needs its receiver to listen, and a walk over the channel registry visits one channel at a time, may
  skip one that is removed before it comes by, and may visit one that is added meanwhile.
- The peer table distinguishes the reading and the writing half of a login, with anything in between. An update from
  a struct writes only the fields that are not zero.
- Choices of the environment are parameters: fresh ephemerals, the clock, the outcome of a read or of a token
  validation, which buffer the pool hands out, the cipher of a data loop.

## What turned out not to hold

- A node can crash. `PeerMachine.CrashExactly` and `KeyAgreement.CrashCauses` say exactly when: its handshake loop
  picks up a genuine handshake message at the wrong time (crossed initiations, a late or repeated answer, any
  handshake message at an established initiator). `Crashes.PairCrashes` has a run for crossed initiations and one for
  a repeated answer.
- Two streams that connect at the same time can block each other for ever: any two that have registered and not yet
  announced themselves can (`StreamSettling.ConcurrentConnectsCanBlock`), a standstill with something unfinished is
  the same as such a cycle (`StreamSettling.StandstillIsCycle`), and no step breaks it
  (`StreamProgress.CycleIsForever`). For any two peers there is such a run (`StreamSettling.DeadlockIsReachable`).
- A channel can be closed under a blocked sender: exactly when the stream that leaves is being sent to
  (`StreamSettling.CrashExactly`, `StreamSettling.LeavingCrashesExactly`), and it takes no more than one announcement
  still under way (`StreamSettling.AnnouncementThenLeavingCrashes`). It does not happen while streams connect and
  disconnect one at a time (`StreamSettling.OneAtATimeNeverCrashes`); then everything settles
  (`StreamSettling.LeftAloneViewsConverge`). For any two peers there is a run to it
  (`StreamSettling.CrashIsReachable`).
- How many streams may connect and disconnect at once? A state can lead to a crash or a cycle by steps of the streams
  alone exactly when two streams have a channel, or are about to, without being in their loops, or one has and
  another one that is past closing its channel has not visited it (`StreamDanger.HarmlessExactly`).
- An exhausted prefix is not an error: `Ipam.InsideExactly` says exactly when the address handed out is inside the
  network, and `Exhaustion.ExhaustedPrefixRunsOn` has a network whose first peer is outside. Past the last address of
  IPv4, one registration stores a text that is no address (`Exhaustion.LastAddressExhausts`), and from then on none
  succeeds until a record is deleted (`Exhaustion.NoFurtherRegistration`).
- Registrations race for addresses: of two new machines that are read before either is written the second fails, in an
  empty network as well (`Races.ConcurrentRegistrationsCollide`, `Races.RaceInEmptyNetwork`).
  `Races.RegistrationFailsExactly` says exactly when.
- A forced logout changes nothing in the table: `RegistryRuns.LogoutIsNotStored`. For the same reason a login stores
  neither an empty key, host name or endpoint nor the cleared mark of an open stream (`RegistryEffects.LoginIsWritten`).
- The in-transport mark is not the same as state 2: an initiator whose receive timer expires goes back to state 1 and
  keeps the mark until the handshake timer fires (`PeerRuns.MarkedWhileWaiting`, `PeerRuns.MarkedExactly`).
- Clearing a returned inbound buffer zeroes only the visible part of its packet slice. This is enough, because nothing
  behind it was ever written: `InboundPath.ClearedIsClean` with `InboundPath.RunKeepsInv`.

## Model

| member | source | states |
|---|---|---|
| PeerMachine.StepKeepsValid | node/peer_transport.go:158-358 | every handler keeps: write lock held exactly outside state 2, ciphers present when it is free, coherent role, state and handshake object, timers armed only where they belong, 1 to 10 retries exactly in state 1, a next keepalive always on its way; a started peer stays started |
| PeerMachine.CrashExactly | node/peer_transport.go:158-221 | a handler panics exactly when the handshake loop picks up a message the state cannot digest; no data loop meets a missing cipher and no timer crashes |
| PeerMachine.BlockedExactly | node/peer_transport.go:20-95 | the data loops take packets whatever the state and finish with them exactly in state 2; the handshake loop never waits for the lock |
| PeerMachine.TimersBlockedExactly | node/peer_transport.go:312-358 | the timers run exactly when they are armed, and the receive timeout never finds the lock taken |
| PeerMachine.RetriesRunOut | node/peer_transport.go:128-155 | left entirely alone, an initiator sends exactly the remaining initiations, one per timeout, and the next timeout resets it to idle |
| PeerRuns.AttemptsAreCounted | node/peer_transport.go:128-155 | whatever happens except an answer, while retries are left the peer goes on waiting, its retries and the initiations it sends being those of the timeouts |
| PeerRuns.UnansweredGivesUp | node/peer_transport.go:312-321 | whatever happens except an answer, the timeout after the last retry is the first moment at which the peer is back in state 0 |
| PeerRuns.MarkedExactly | node/peer_transport.go:333-358 | in every run a waiting peer carries the in-transport mark exactly when a receive timeout led there and no handshake timeout has fired since |
| PeerRuns.MarkedWhileWaiting | node/peer_transport.go:333-358 | a run to such a state |
| PeerMachine.ChannelsOfTimeout | node/peer_transport.go:312-358 | a timeout either empties all three channels or leaves them alone but for one keepalive in an empty channel; what the data loops hold it leaves alone |
| PeerEffects.InitiatesExactly | node/peer_transport.go:128-155 | an initiation is sent exactly for a packet from the tunnel at an idle peer, for an unanswered initiation that is not the tenth, and for a receive timeout of an initiator |
| PeerEffects.NextPacketTriesAgain | node/peer.go:197-213 | after ten unanswered initiations the peer is idle, and the next packet from the tunnel begins a new attempt, whatever the data loops hold |
| PeerEffects.SendsWhereHeard | node/peer_transport.go:280 | whatever is sent goes to where the other side was last heard: the sender of the message that completed a handshake, or of the last packet that was opened |
| PeerHandlers.Peer.Start | node/peer.go:140-162 | takes the lock and starts the peer, refuses a running one |
| PeerHandlers.Peer.FlushHandshakeQueue | node/peer.go:290-303 | empties the handshake channel and changes nothing else |
| PeerHandlers.Peer.FlushOutboundQueue | node/peer.go:275-288 | empties the outbound channel and changes nothing else |
| PeerHandlers.Peer.FlushInboundQueue | node/peer.go:260-273 | empties the inbound channel and changes nothing else |
| PeerHandlers.Peer.ResetState | node/peer.go:215-240 | back to idle with empty channels, no ciphers and no retries; running and the lock as before |
| PeerHandlers.Peer.TrySendHandshake | node/peer_transport.go:128-155 | counts the attempt, then sends one initiation with a fresh ephemeral and arms the timer, or resets after ten |
| PeerHandlers.Peer.HandshakeP2 | node/peer_transport.go:266-310 | reads a message the role can read and installs both ciphers of the session; a responder answers |
| PeerHandlers.Peer.HandshakeLoop | node/peer_transport.go:158-221 | one handshake message, with the lock released exactly once; a panic exactly when the machine crashes |
| PeerHandlers.Peer.TakeInbound | node/peer_transport.go:25-30 | the oldest data packet leaves the channel for the loop's hands, without the lock |
| PeerHandlers.Peer.OpenInbound | node/peer_transport.go:30-56 | with the lock, decrypts with the nonce of the header; writes a non-empty payload, updates the endpoint and rearms the timer only on success |
| PeerHandlers.Peer.TakeOutbound | node/peer_transport.go:62-68 | the oldest packet leaves the channel for the loop's hands, without the lock |
| PeerHandlers.Peer.SendOutbound | node/peer_transport.go:68-94 | with the lock, encrypts the packet in hand with the nonce put in its header; on failure drops it |
| PeerHandlers.Peer.InboundPacket | node/peer.go:182-195 | queues for a running peer with room, drops otherwise (`PeerEffects.DataArrivalEffect`) |
| PeerHandlers.Peer.HandshakePacket | node/node.go:270-274 | queues for a running peer, or waits while there is no room; nothing for a stopped one |
| PeerHandlers.Peer.OutboundPacket | node/peer.go:197-213 | the step of the machine: the same, and begins a handshake exactly from idle (`PeerEffects.TunnelPacketEffect`) |
| PeerHandlers.Peer.HandshakeTimeout | node/peer_transport.go:312-321 | the step of the machine |
| PeerHandlers.Peer.TXTimeout | node/peer_transport.go:323-331 | queues an empty packet only into an empty channel |
| PeerHandlers.Peer.RXTimeout | node/peer_transport.go:333-358 | takes the lock, which is free, and resets a responder or restarts an initiator (`PeerEffects.ReceiveTimeoutEffect` says what this leaves) |
| KeyAgreement.EveryPeerIsValid | node/peer_transport.go:128-358 | in every run of two nodes over a network that loses, reorders and duplicates both peers satisfy the invariant, and the retry counter is the number of initiations sent in this attempt |
| NodeEffects.ReceiveTimeouts | node/peer_transport.go:333-358 | in every run, the receive timeout of a responder sends nothing and leaves it idle: no session, no timers, empty channels; an initiator sends one initiation to its peer's endpoint and waits in state 1 with one retry |
| NodeEffects.TunnelPackets | node/peer.go:197-213 | in every run, a packet from the tunnel is queued if there is room, and makes a started peer send something exactly when it is idle: the first initiation of an attempt |
| NodeEffects.InitiationsComeFrom | node/peer_transport.go:312-358 | in every run, each initiation of a node comes from a tunnel packet at an idle peer or from a timeout of an initiator, and each of these sends one but for the timeout after the tenth |
| NodeEffects.SentWhereHeard | node/peer_transport.go:280 | in every run, everything a node sends goes to where its peer was last heard |
| KeyAgreement.KeysAgree | node/peer_transport.go:251-310 | an established initiator's session was installed by its peer as a responder, with the two keys swapped, the one ephemeral drawn by the initiator for its last initiation and the other by the responder |
| KeyAgreement.InstalledKeysAreNew | node/peer_transport.go:289-309 | in every run a responder's sessions never share a key |
| KeyAgreement.InitiationsAreNew | node/peer_transport.go:146-152 | in every run no two initiations of a node use the same ephemeral |
| KeyAgreement.CrashCauses | node/peer_transport.go:158-221 | in every run, exactly which genuine handshake message at which time crashes a node |
| FirstDelivery.PacketsAreDelivered | node/peer_transport.go:20-95 | for any two new nodes and any packet the one routes to the other, a run to a session of both with the packet written to the other tunnel |
| Crashes.CrossedInitiationsCrash | node/peer_transport.go:184-194 | for any two new nodes with a packet for each other, a run in which their initiations cross and one crashes |
| Crashes.RepeatedAnswerCrashes | node/peer_transport.go:202-210 | for any two new nodes, a run in which an answer is delivered twice and the initiator crashes |
| Crashes.PairCrashes | node/peer_transport.go:184-210 | two particular nodes to which both happen |
| Nonces.NoncesAreUnique | node/peer_transport.go:68-75 | no key and nonce encrypt two packets in any run, across rekeys and directions; the packets of a key are numbered 0, 1, 2, ... |
| Nonces.NoncesAreUniqueWhateverArrives | node/peer_transport.go:68-75 | a node by itself never repeats a nonce under a key, whatever other nodes send it |
| Nonces.HeadersCarryNonces | node/peer_transport.go:68-75 | the counter of every data packet on the network is the nonce it was encrypted with |
| Delivery.PacketsAccountedFor | node/peer_transport.go:60-95 | in every run each accepted packet is exactly one of sent, failed, flushed, in hand or queued, in order, at most one in hand with none but flushed ones after it, and the encrypted ones are those sent |
| Delivery.WrittenWasRead | node/node.go:307-343 | a payload written to the tunnel was read from the peer's tunnel for this node's address, which lies in the peer's network and is not its own, and is not empty |
| Delivery.AnyOrderDecrypts | node/peer_transport.go:20-58 | an established peer decrypts the data packet it has taken, now or before the session, in any arrival order, exactly when it holds its key, and a failure leaves it as it was but for the nonce |
| Waiting.WaitingPacketsGoOutNext | node/peer_transport.go:60-95 | until there is a session nothing is sent, packets leave the channel only into the loop's hands or in a reset, and the one in hand stays; in the session that follows the one in hand, the queued and the newly accepted are served in this order, under its key, none flushed |
| Waiting.HeldPacketOutlivesReset | node/peer_transport.go:60-68 | the timeout that gives an attempt up leaves exactly the packet in hand |
| Fifo.LinkRefinesNetwork | node/packets.go:14-31 | every run over a lossy link in order is a run of the general network |
| LinkSession.SessionOverLink | node/peer_transport.go:158-221 | for any two new nodes and any packet the one routes to the other, a run over the link to a session of both, which the responder uses |
| Fifo.ResponderStillAgrees | node/peer_transport.go:158-221 | over such a link an established initiator's session is the last its peer installed, and the peer still uses it with the swapped keys unless it timed out |
| Fifo.LiveEndsByTimeout | node/peer_transport.go:333-358 | in every run over the link, the only step that ends the responder's session is its own receive timeout |
| Fifo.AnsweredInOrder | node/peer_transport.go:289-309 | over such a link no responder answers an initiation made before, or the same as, one it has answered |
| Fifo.NewestIsLast | node/peer_transport.go:289-309 | a session for the newest initiation is the last one installed |
| UpdateStream.LoopingStreamsKnowEachOther | controller/grpc_v1.go:187-239 | in every interleaving two streams in their loops have each been sent the other one, in the list or by CONNECT |
| UpdateStream.ViewsConverge | controller/peer_updates.go:31-98 | whenever nobody is connecting or disconnecting, replaying a stream's updates gives exactly the other connected peers |
| UpdateStream.LateChannel | controller/peer_updates.go:67-74 | a channel added while a stream walks the registry may still be told, and the walk may end without it |
| StreamProgress.StuckMeansCycle | controller/peer_updates.go:67-74 | every reachable standstill contains a cycle of streams each blocked sending CONNECT to the next |
| StreamProgress.SerialConnectsNeverStuck | controller/grpc_v1.go:193-216 | with at most one stream announcing itself some internal step is not blocked, though it may be a crash |
| StreamSettling.SerialConnectsGoOn | controller/grpc_v1.go:193-216 | if moreover no stream that leaves is being sent to, some internal step is possible without a crash |
| StreamSettling.StandstillIsCycle | controller/peer_updates.go:67-74 | when nothing internal is possible, something is unfinished exactly when there is a cycle |
| StreamSettling.ConcurrentConnectsCanBlock | controller/grpc_v1.go:192-193 | in every run any two streams that have registered and not announced themselves can end up in a cycle |
| StreamSettling.CrashExactly | controller/peer_updates.go:13-18 | a step crashes exactly when it closes the channel of a stream that another one is sending to |
| StreamSettling.LeavingCrashesExactly | controller/grpc_v1.go:196-200 | in every run, a looping stream whose client leaves crashes in its cleanup exactly when another one is sending to it |
| StreamSettling.AnnouncementThenLeavingCrashes | controller/grpc_v1.go:196-221 | in every run, an announcement that still has to come by a looping stream can be led to that crash |
| StreamSettling.OneAtATimeNeverCrashes | controller/grpc_v1.go:187-221 | in every run nothing crashes while at most one stream is connecting or disconnecting |
| StreamSettling.LeftAloneViewsConverge | controller/peer_updates.go:31-98 | from any such state the controller takes a bounded number of steps, and where it comes to rest all streams have settled and each has been sent exactly the other connected peers |
| StreamProgress.CycleIsForever | controller/peer_updates.go:67-74 | no step and no client breaks such a cycle |
| StreamSettling.DeadlockIsReachable | controller/peer_updates.go:67-74 | for any two peers a run that ends in such a cycle, at a standstill |
| StreamSettling.CrashIsReachable | controller/peer_updates.go:13-18 | for any two peers a run that closes the channel of one under the other, its blocked sender |
| StreamDanger.HarmlessExactly | controller/grpc_v1.go:187-221 | from which reachable states steps of the streams alone can lead to a crash or a cycle: exactly those with two streams exposed, or one exposed and another parting that has not visited it |
| StreamProgress.InternalRunsEnd | controller/grpc_v1.go:193-216 | while no client comes or goes the streams take a bounded number of steps |
| UpdateServer.Controller.SetPeerConnected | controller/db/peer.go:46-48 | sets the mark of this row and of no other |
| UpdateServer.Controller.GetConnectedPeers | controller/peer_updates.go:31-52 | exactly the connected peers but this one, each once, and their number |
| UpdateServer.Controller.Announce | controller/peer_updates.go:54-98 | every other channel gets the news exactly once |
| UpdateServer.Controller.ConnectStream | controller/grpc_v1.go:187-216 | a whole connect: every looping stream is told once, the new one is sent the connected peers; it is a run of the protocol and keeps its invariant |
| UpdateServer.Controller.DisconnectStream | controller/grpc_v1.go:196-221 | a whole disconnect, likewise |
| UpdateServer.JoinIsRun | controller/grpc_v1.go:187-216 | the effect of a connect in a quiet controller is that of protocol steps in the order of the code |
| UpdateServer.LeaveIsRun | controller/grpc_v1.go:196-200 | the effect of the deferred cleanup, likewise |
| Header.Encode | pkg/header/header.go:47-74 | fails exactly on a nil header or short slice and then changes nothing; otherwise the first 16 bytes are the layout and the rest is as before |
| Header.EncodeToSlice | pkg/header/header.go:65-74 | the first 16 bytes are the layout of the fields and the rest is as before |
| Header.Parse | pkg/header/header.go:76-99 | succeeds exactly on version 1 with the padding; the fields are assigned even when it fails |
| Header.Header.Reset | pkg/header/header.go:39-45 | version and padding set, the rest zero |
| Header.FieldsOfLayout | pkg/header/header.go:65-90 | parsing what was encoded gives back the fields, whatever follows |
| Header.LayoutOfFields | pkg/header/header.go:65-90 | encoding what was parsed reproduces the bytes |
| Header.EncodingIsBijective | pkg/header/header.go:47-99 | accepted 16-byte strings and (type, index, counter) correspond one to one |
| Custody.OneHolder | node/queue.go:52-95 | under linear custody a held buffer is not pooled, not lost, and held at no other place or position |
| Custody.GetKeeps | node/queue.go:52-55 | taking a pooled or new buffer keeps custody linear and the counter right |
| Custody.PutKeeps | node/queue.go:57-67 | returning a held buffer keeps custody linear and the counter right |
| Custody.KeptIsInOrder | node/queue.go:52-95 | what the steps keep means: no buffer at two places or twice at one, the pooled ones clean and pooled once, and the counter that of the held and the dropped |
| Custody.CounterBalances | node/queue.go:52-95 | the in-use counter is the buffers of some holders, the channels say, plus those of the others plus the dropped ones |
| InboundPath.ParseSeesDatagram | node/node.go:243-255 | on a zeroed buffer, parsing all 1600 bytes accepts exactly the datagrams that contain a whole valid header, and reads their fields |
| InboundPath.RunKeepsInv | node/queue.go:39-67 | every step of every run keeps linear custody, clean pooled buffers and deliverable queued ones |
| InboundPath.SlicesAreInRange | node/peer_transport.go:32-36 | in every run the slice behind the header is in range, and is the tail of one datagram that arrived, accepted by itself and naming this peer |
| InboundPath.EveryRunIsInOrder | node/node.go:243-304 | every run keeps that order, and what is dropped is exactly the handshakes for stopped peers and the packets for full channels |
| InboundEffects.DispatchesObeyTheDatagram | node/node.go:243-304 | in every run, by the datagram's bytes alone: data for a known running peer with room joins its channel behind the others and a handshake its handshake channel, or waits with its reader; the pool, the other channels and the content stay; the rest goes back clean or is dropped |
| InboundEffects.GoesBackExactly | node/node.go:243-304 | a dispatch returns the buffer exactly when the header is refused, the peer is unknown, the type is neither handshake nor data, or it is data for a stopped peer |
| InboundEffects.ReturnsEffect | node/peer_transport.go:35-56 | a loop that has used a buffer, a failed read and a flush return the oldest buffer of their place clean, and the others stay where they are |
| InboundEffects.TakesEffect | node/peer_transport.go:25-30 | the loops take the oldest buffer of their channel unchanged, and a waiting reader hands over its own |
| InboundEffects.PeersAreTheLatest | node/peer.go:127-162 | in every run a peer is known if it was last added and runs if it was last started |
| InboundPath.FlushIsRun | node/peer.go:260-303 | flushing a channel is a sequence of returns and empties it |
| InboundPath.ClearedIsClean | node/queue.go:57-67 | zeroing the visible slices leaves a buffer without a trace, if what is hidden was zero |
| InboundBuffers.InboundBuffer.Clear | node/queue.go:57-67 | zeroes the arrays in place and resets every field |
| InboundBuffers.Receiver.GetInboundBuffer | node/queue.go:52-55 | a pooled buffer or a new one, now with the reader |
| InboundBuffers.Receiver.PutInboundBuffer | node/queue.go:57-67 | cleared, pooled and no longer held; no other buffer changes |
| InboundBuffers.Receiver.ReadUDPPacket | node/packets.go:14-31 | the datagram cut to 1600 bytes over the old content, or the buffer back in the pool |
| InboundBuffers.Receiver.OnUDPPacket | node/node.go:243-304 | the dispatch that `InboundEffects.DispatchEffect` tells by the datagram: returned, queued, waiting or dropped; no other buffer changes |
| InboundBuffers.Receiver.ResumeSend | node/node.go:270-274 | when there is room, a reader that waited hands its buffer to the handshake loop |
| InboundBuffers.Receiver.InboundPacket | node/peer.go:182-195 | put back if the peer is stopped, queued if there is room, dropped otherwise |
| InboundBuffers.Receiver.InboundRound | node/peer_transport.go:24-56 | from any state a run can reach the slice is in range; what is written is what the cipher made of the datagram's tail; the buffer is back in the pool |
| InboundBuffers.Receiver.ReadHandshake | node/peer_transport.go:266-292 | the counter, the message behind the header and its sender, and the buffer back in the pool |
| InboundBuffers.Receiver.Flush | node/peer.go:260-303 | returns what is queued, one buffer after the other |
| OutboundPath.RunKeepsInv | node/queue.go:69-95 | every step of every run keeps linear custody, clean pooled buffers and routed or empty queued ones |
| OutboundPath.PlaintextsAreRoutedOrEmpty | node/node.go:307-343 | in every run, with peers learned at any time, what a peer encrypts is in range, and is a packet read from the tunnel for an address the node was told for this peer, inside the network and not its own, or the empty keepalive |
| OutboundPath.PlaintextsAreNetworkPackets | node/node.go:307-343 | where a peer has one address, what its sending loop encrypts is a keepalive or a packet that the two-node network routes to it |
| OutboundPath.DestinationOfPacket | node/node.go:307-327 | the destination read from the whole buffer is that of the packet padded with zeros |
| OutboundPath.EveryRunIsInOrder | node/queue.go:81-95 | every run keeps that order, and what is dropped is exactly the packets for full channels |
| OutboundEffects.RoutesObeyThePacket | node/node.go:307-346 | in every run, a packet with an accepted header for an address of a known running peer with room, in the network and not the node's own, joins that peer's channel unchanged; one for a full channel is lost; every other buffer goes back clean |
| OutboundEffects.PassingEffect | node/packets.go:34-51 | what is read is what the router looks at, with zeros behind it; a keepalive is empty; the loop takes the oldest buffer unchanged |
| OutboundEffects.RoutesAreTheLatest | node/peer.go:127-135 | in every run an address leads to the peer it was last told for |
| OutboundEffects.SentDatagramsParse | node/peer_transport.go:62-94 | a sent datagram is accepted as what it is, names the node, carries the counter, and what follows the header is the box or message |
| OutboundBuffers.Sender.GetOutboundBuffer | node/queue.go:81-84 | a pooled buffer or a new one |
| OutboundBuffers.Sender.PutOutboundBuffer | node/queue.go:86-95 | cleared, pooled and no longer held; no other buffer changes |
| OutboundBuffers.Sender.AddPeer | node/peer.go:127-135 | the address leads to this peer from now on |
| OutboundBuffers.Sender.ReadTunPacket | node/packets.go:34-51 | the packet over the old content, or the buffer back in the pool |
| OutboundBuffers.Sender.OnTunnelPacket | node/node.go:307-346 | returned, queued for the peer of the destination address, or dropped at a full channel |
| OutboundBuffers.Sender.QueueKeepalive | node/peer_transport.go:323-331 | an untouched buffer of size zero in the channel |
| OutboundBuffers.Sender.OutboundRound | node/peer_transport.go:62-94 | from any state a run can reach the slice is in range; on the wire goes the header with the nonce, then the packet encrypted with it; the buffer is back in the pool |
| OutboundBuffers.Sender.WriteHandshake | node/peer_transport.go:251-263 | on the wire goes the handshake header, then the message |
| Netip.ContainsByLeading | controller/db/ipam.go:42-44 | a prefix contains exactly the addresses with its leading bits |
| Ipam.GetAllocatedIPs | controller/db/ipam.go:13-31 | the addresses of the column that parse, in order |
| Ipam.AllocatePeerIP | controller/db/ipam.go:33-69 | terminates with the least address from the prefix address on that is not stored, network or broadcast, or with none |
| Ipam.FirstFitIsUnique | controller/db/ipam.go:58-66 | that determines the result |
| Ipam.InsideExactly | controller/db/ipam.go:58-66 | it is inside the network exactly when a usable address is free there from the prefix address on |
| Ipam.RoomMeansInside | controller/db/ipam.go:58-66 | it is inside any masked network of at most 30 bits that stores fewer than size minus two, and at most that many further than its first host |
| RegistryRuns.HighWaterMark | controller/controller.go:110-144 | in every interleaving stored addresses are distinct and, while there was room, every address handed out is within network base + 1 + peak number of peers |
| RegistryRuns.StreamsWithinWindow | controller/grpc_v1.go:168-185 | every stream opened belongs to an owner with a token validated less than 30 days before |
| RegistryRuns.IdentityNeverChanges | controller/controller.go:31-59 | machine, address, prefix and user of a record never change, and its id is not used again, whatever stale writes come |
| RegistryRuns.LogoutIsNotStored | controller/controller.go:65-85 | the update of a forced logout leaves the table as it is |
| RegistryEffects.FoundExactly | controller/db/peer.go:7-14 | a machine is found exactly when some row has it, and then in the first such row |
| RegistryEffects.DeletionEffect | controller/controller.go:87-108 | in every run, deleting a stored id cuts exactly its row out of the table, the others stay in order, and deleting another id does nothing |
| RegistryEffects.StaysUnlessDeleted | controller/db/peer.go:62-64 | in every run, a record that no event deletes stays, with its machine, address, network and owner |
| RegistryEffects.DecidedExactly | controller/grpc_v1.go:99-166 | a login enrolls exactly a machine without a row that has a token, and updates exactly a machine whose first row is enabled and authorised lately or by its owner's token |
| RegistryEffects.KnownMachinesAreNotEnrolled | controller/grpc_v1.go:112-165 | in every run, a machine that has a row when its login is read is not enrolled: no address is handed out, and the write adds no row and changes nobody's identity |
| RegistryEffects.LoginIsWritten | controller/controller.go:31-59 | in every run, an uninterrupted login leaves the request's key, host name and endpoint, where given, and the time in the machine's row, and every other row as it was |
| RegistryEffects.LateWrite | controller/controller.go:31-59 | in every run, the write of a login that was read earlier changes only rows with the id it read, and no identity |
| RegistryEffects.EnrollmentEffect | controller/controller.go:110-144 | the record of a new machine has the request's machine, key, host name and endpoint, the token's user and the first address that fits |
| RegistryEffects.StreamEffect | controller/grpc_v1.go:168-185 | a stream is opened exactly for a machine whose first row is enabled, logged in and authorised less than 30 days before |
| RegistryServer.Store.GetPeerByMachineID | controller/db/peer.go:7-14 | the first record of this machine, and something exactly when there is one |
| RegistryServer.Store.CreatePeer | controller/db/peer.go:58-60 | fails exactly on a stored address; otherwise appends under a new id |
| RegistryServer.Controller.ProcessPeerLogin | controller/controller.go:31-59 | refuses a disabled peer; otherwise stores exactly the login fields |
| RegistryServer.Controller.LogoutPeer | controller/controller.go:65-85 | the table stays as it is |
| RegistryServer.Controller.RegisterPeer | controller/controller.go:110-144 | stores the new record under the allocated address, or fails without a trace |
| RegistryServer.Controller.DeletePeer | controller/controller.go:87-108 | reports exactly that there is no such record; afterwards the records are those with other ids, in order |
| RegistryServer.Controller.LoginPeer | controller/grpc_v1.go:99-166 | the reply and the table for each branch of the decision; the reply is what the machine's record says; a known machine keeps the number of rows and every identity |
| Races.RegistrationFailsExactly | controller/controller.go:110-144 | in every run a registration read in one state and written in another fails for its address exactly when a row has it by then; unless addresses were exhausted, exactly when another registration stored it in between and it has been stored since |
| Races.ConcurrentRegistrationsCollide | controller/db/ipam.go:33-69 | of two new machines that are both read before either is written, the second fails |
| Races.RaceInEmptyNetwork | controller/controller.go:114-141 | a run of that in an empty network with room for 254 peers |
| Exhaustion.UninterruptedFailsExactly | controller/types/peer.go:9-28 | a registration that nothing interrupts fails for its address exactly when nothing is usable from the prefix address to the end of IPv4 and the text for that is stored already |
| Exhaustion.NoFurtherRegistration | controller/controller.go:110-144 | in every run, from then on no registration succeeds until a record is deleted, in whatever order requests interleave |
| Exhaustion.LastAddressExhausts | controller/db/ipam.go:58-68 | a run that gets there with one registration |
| Exhaustion.ExhaustedPrefixRunsOn | controller/db/ipam.go:58-68 | a network whose first peer is given an address outside |

## Left out

- `Peer.Stop`, and the key change in `Peer.Update` that calls it: `Stop` releases a lock that is free in state 2 and waits for goroutines that may be blocked on it; the invariants are for peers that are not stopped. Endpoint and host name changes by an update are left out too; no result depends on where datagrams are addressed.
- Interleavings inside a handler of a peer, for example between the read of the state and the lock, or between the handshake loop's receive and its use of the message: the code itself marks this as unsettled. The nil values that end the loops come only from `Stop`.
- Nodes other than the two, and a node that writes another one's id into its headers: the network of `Network` delivers what the two nodes sent and invents nothing. A responder does not compare the static key of an initiation with that of the peer the header names (node/peer_transport.go:276-292, node/noise.go:9-28).
- KeyAgreement.EveryPeerIsValid: as all results over `Network`, is about these two nodes.
- Delivery.WrittenWasRead: relies on this network as well; a third node that wrote its peer's id would not be held to it. What is shown of a node among any others is `Nonces.NoncesAreUniqueWhateverArrives` and, over any sequence of handlers, `PeerMachine.StepKeepsValid` with `PeerRuns`.
- PeerHandlers.Peer.OpenInbound: holds packets as values; the buffers they travel in are the subject of `InboundBuffers` and `OutboundBuffers`.
- PeerHandlers.Peer.FlushHandshakeQueue: says nothing of the buffers; that they go back to the pool is `InboundBuffers.Receiver.Flush`.
- PeerHandlers.Peer.FlushInboundQueue: likewise.
- PeerHandlers.Peer.FlushOutboundQueue: likewise; the return is the event FlushOutbound of `OutboundPath`.
- PeerHandlers.Peer.TrySendHandshake: does not model the punch request of a retry, which goes to the controller.
- Header.Encode: does not return the 16-byte slice of the buffer, which the callers here take themselves; slices are as long as their capacity.
- InboundBuffers.Receiver.ReadHandshake: takes the bounds of the slice as its requirement; that every run meets it is `InboundPath.SlicesAreInRange`.
- OutboundBuffers.Sender.OnTunnelPacket: takes the verdict of the IPv4 parser as a parameter, and the handshake a packet may start is in `PeerHandlers.Peer.OutboundPacket`.
- The reaction to a STUN message, and to punch and discovery messages beyond returning the buffer.
- The order in which `sync.Pool` hands out buffers, and the atomicity of the counters.
- Buffers in hand when the process panics: nothing runs afterwards.
- UpdateServer.Controller.Announce: runs while every receiver waits for updates; a busy receiver makes it wait, as in `UpdateStream`.
- UpdateServer.Controller.ConnectStream: runs a connect without interruption while no other stream is connecting or disconnecting; all interleavings are in `UpdateStream`.
- UpdateServer.Controller.DisconnectStream: likewise for a disconnect.
- UpdateStream.ViewsConverge: is about the updates sent on a stream; what the node makes of them is left out, and it ignores DISCONNECT (node/grpcclient.go:92-93).
- Streams assume one live stream per peer, no deletion of a peer while it has a stream, and no cleanup of an earlier forced logout that falls into a later stream; PUNCH and LOGOUT updates and a failing write of the connected mark are not modelled.
- A client that is slow to receive: `stream.Send` either completes or fails.
- Ipam.AllocatePeerIP: does not model IPv6, invalid prefixes or a failing database.
- RegistryServer.Controller.LoginPeer: works on copies of records, so the later use of a record object by its caller is not modelled; nor are database failures.
- RegistryServer.Controller.LogoutPeer: does not model the LOGOUT update and the delayed cleanup of the channel.
- RegistryServer.Store.CreatePeer: knows the unique index on the address only; the comma-joined tags of the other columns name no index. Ids are never used again.
- RegistryRuns.StreamsWithinWindow: takes the reading of the record, the validation of the token and the stamp of LastAuth as one moment; the code stamps after it has validated, so its bound is 30 days plus the time a request takes in between. It measures in whole nanoseconds, without the rounding of `Hours()/24`.
- OAuth and JWT validation, gRPC plumbing, the command line, key files, logging and protobuf conversion.
