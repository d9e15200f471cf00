# Verified model of VLMessaging

VLMessaging lets agents send each other messages: on one router, between the routers of a machine, and from Excel/VB
processes through shared memory. This project models its protocols and message core in Dafny and proves what they
promise. It has four parts.

**The shared-memory transport (VB6).** Two endpoints find each other through a listener window, greet each other
(request, agreed, acknowledged) and then each sends through a one-buffer mapped file: copy in, post `messageInTransit`,
wait for `messageReceived`. A window is a FIFO mailbox that vanishes with the window, a mapped file is one slot, a
handler runs to completion, and the clients' answers (what they send in an event, whether they receive it) are
arbitrary. `MMFileTransport` holds the endpoint as a value with one function per operation, and the class
`FileTransport` whose methods update the fields and are proved to compute those functions. `MMFileProtocol` joins two
endpoints and proves the invariant of every run; `MMFileTheorems` states the promises. `MMFileListener` is the queue of
new connections.

**The message core (Python).** `Messaging` has messages, routing, and a connection's `send` and reply matching;
everything up to an `await` is one step. `Correlation` runs any number of routers, connections and agents in any
interleaving, and `Conversation` follows two agents that go on answering each other. `AutoReply` and `DieOut` are the
instruction lists that handlers return. `SocketBundle` is the sending to other routers while they are being dialled (no
dial is ever started twice, `NeverDialsTwice`), `TimerLoop` the timer functions of a router, `Directory` the service
directory with its heartbeat, and `Replication` directories that share through a hub.

**The machine router (VB6).** `MachineRouter` gives router ids, keeps services under a printed key and passes messages
on; `IdString` shows that the key can be taken apart again, and `OrderedDictionary` is the dictionary it is used with.
`Picking` says what it means to pick some elements of a sequence in order; the service directories are stated with it.

**Logger levels by pattern (Python).** `LoggingConfigure`.

Objects that the source updates in place are classes here. Each class has a `View` that gathers its fields in a value,
and each method `ensures` that the new view is what the specification function makes of the old one; the promises are
proved about those functions, over whole runs. Records that the source does not keep (everything sent, everything
accepted, the request that a message was, ...) are added for the statements and never read by an operation.

## What the code does not do

Proving exposed cases in which a promise fails. Each is stated with the exact condition under which it holds.

- A buffer too big for the file raises an error only after the endpoint was marked as sending, so the endpoint never
  sends again (`RaisedSendStalls`, `SendRaises`); this is the only way in which an open pair loses a buffer
  (`ExactlyOnceInOrder`), and the only reason for which not everything is accepted in the end (`EverythingIsAccepted`).
- `send` between `disconnect` and its end writes through an unmapped address, exactly when the endpoint is idle and the
  buffer fits (`SendFaultsExactly`, `SendFaults`).
- If the connecting side disconnects before the other has handled the acknowledgement, the other never becomes
  connected, and only then (`ListenerConnectsExactly`); it goes down if a buffer was posted (`EarlyLeaveFaults`).
- A router's own notice that a message was not delivered has no reply address, so it reaches only senders on the same
  router (`NoticesDoNotCross`). If the pipe to the sender's router is known, which it normally is, trying to send the
  notice raises an error that ends the router's main loop, and it serves nobody any more (`RouterStopsExactly`,
  `StoppedServesNothing`, `NoticeStopsRouter`). If that router is being dialled, the notice is accumulated, and it and
  everything queued after it is dropped (`DialSendsInOrder`, `LosingHappens`).
- A reply whose address names no machine endpoint has to be made at the router where the message was delivered
  (`ReplyIsGoodExactly`): made elsewhere it can be taken for the answer to another request
  (`MisdirectedReplyMisleads`).
- A PING is answered once for every instruction that answers it (`PingIsAnsweredOnceExactly`), so the usual list answers
  it twice (`PingIsAnsweredTwice`).
- Automatic answers can go on for ever exactly if a list that answers replies meets an inbox without a handler
  (`EndlessExactly`), as a directory's list does (`DirectoryNeverStops`).
- A greeting that arrives while the greeted router is dialling lets later messages overtake the accumulated ones
  (`OrderKeptExactly`, `OvertakingHappens`).
- `unscheduleFn` removes one occurrence at each due time (`UnscheduleTakesOneEach`).
- One entry registered without vnets stops a router from sharing anything with its hub (`SharingStopsExactly`), and a
  message sent to the directory's short address does not keep the sender's entries on a machine router
  (`ShortAddressRefreshesExactly`, `ShortAddressLosesEntry`).
- The documentation of `configure` says that 'A.*' matches the logger 'A'; the code's prefix is 'A.', so it does not
  (`WildcardMissesItsParent`). Its comment puts names before wildcards; the sort key puts them after, and that is what
  makes the more specific win. A wildcard loses to a shorter one if the name goes on with a character below '*'
  (`MostSpecificWinsExactly`, `ShorterWildcardCanWin`).

In all of these the model follows the code.

## Model

| member | source | states |
|---|---|---|
| MMFileTheorems.ExactlyOnceInOrder | vb6/VLMessaging/VLMMMFileTransport.cls:67-105 | In every run and direction: accepted, queued at the receiver, in the slot, lost and queued at the sender are together exactly what was given to `send`, in order, while the receiver is open; afterwards what was accepted is a prefix; only a buffer that does not fit is ever lost while both are open. |
| MMFileTheorems.TokenConservation | vb6/VLMessaging/VLMMMFileTransport.cls:430-481 | In every reachable open pair, per direction, `myIsSending` holds exactly when one posted buffer, one acknowledgement or one raised send is out, and never two. |
| MMFileTheorems.SlotNeverOverwritten | vb6/VLMessaging/VLMMMFileTransport.cls:75-105 | From any reachable state no action of either side changes a slot whose buffer is posted and not yet read. |
| MMFileTheorems.RaisedSendStalls | vb6/VLMessaging/VLMMMFileTransport.cls:90-94 | After a `privateSendMessage` that raised, in every continuation the endpoint stays marked as sending, keeps its queue and posts nothing. |
| MMFileTheorems.SendRaises | vb6/VLMessaging/VLMMMFileTransport.cls:82-94 | Such a state is reached: two endpoints in touch, and a buffer too big for the file of one. |
| MMFileTheorems.HandshakeSafety | vb6/VLMessaging/VLMMMFileTransport.cls:368-435 | In every run, whatever is sent while connecting: no complaint is ever posted, and whoever is about to read has mapped the peer's file, knows its size and finds a buffer that fits, exactly if it is connected; the connector then always is, and the listener's endpoint if and only if the connector did not leave early. |
| MMFileTheorems.LeftExactly | vb6/VLMessaging/VLMMMFileTransport.cls:241-423 | A run ends with the connector gone before its acknowledgement was handled, or the other side stuck for want of a file to map, if and only if in it the connector, connected itself, disconnects while the other side is not yet connected. |
| MMFileTheorems.ListenerConnectsExactly | vb6/VLMessaging/VLMMMFileTransport.cls:403-410 | Once the handshake is over, the listener's endpoint has been connected at some point of the run if and only if the connector did not leave early. |
| MMFileTheorems.EarlyLeaveNeverConnects | vb6/VLMessaging/VLMMMFileTransport.cls:241-283 | In a run with an early leave the other side is connected at no point. |
| MMFileTheorems.EarlyLeaveFaults | vb6/VLMessaging/VLMMMFileTransport.cls:430-433 | A run in which the connecting side sends and leaves at once and the other side goes down copying from an address never mapped. |
| MMFileTheorems.SendFaultsExactly | vb6/VLMessaging/VLMMMFileTransport.cls:73-96 | In every reachable state a client's `send` brings the process down if and only if the endpoint is connected, disconnecting and idle and the buffer fits. |
| MMFileTheorems.SendFaults | vb6/VLMessaging/VLMMMFileTransport.cls:241-281 | Such a state is reached: the connector disconnects, its client does not receive the event, and sends. |
| MMFileTheorems.NeverStalls | vb6/VLMessaging/VLMMMFileTransport.cls:399-421 | In every reachable state a connected endpoint with a queue is sending, and an undelivered buffer has the retry timer set. |
| MMFileTheorems.StepLowersWork | vb6/VLMessaging/VLMMMFileTransport.cls:314-476 | Every step of a pair that nobody has left, in its handshake or after it, whose clients accept and do not send, lowers a weighted count of queued buffers, posted buffers, acknowledgements, timers and greetings still to be handled. |
| MMFileTheorems.WorkingRunsEnd | vb6/VLMessaging/VLMMMFileTransport.cls:453-476 | Such a run is no longer than the count at its start, and sends nothing new. |
| MMFileTheorems.EverythingIsAccepted | vb6/VLMessaging/VLMMMFileTransport.cls:453-476 | From any reachable state that nobody has left, the handshake included, such a run that goes on while anything is left to do ends, and then each client has accepted exactly what the other side sent if and only if all of it fits the sender's file. |
| MMFileTheorems.TakenFitsRun | vb6/VLMessaging/VLMMMFileTransport.cls:82-96 | In every run, everything an endpoint has read fits the file it was read from. |
| MMFileTheorems.PeerIsTold | vb6/VLMessaging/VLMMMFileTransport.cls:241-268 | In every reachable state, for both sides: if one side has left without coming down and the other still counts as open, the notice of disconnection is in the other's mailbox. |
| MMFileTheorems.NoticeCloses | vb6/VLMessaging/VLMMMFileTransport.cls:425-428 | Handling that notice leaves the endpoint not open, whatever its client answers: finished if the event is received, with its timer set if not. |
| MMFileTheorems.LeavingEndsBoth | vb6/VLMessaging/VLMMMFileTransport.cls:241-301 | In every run, once one side has left, the other is not open either as soon as it has handled what was in its mailbox. |
| MMFileTheorems.WindowGoesExactly | vb6/VLMessaging/VLMMMFileTransport.cls:270-301 | An action takes an endpoint's window away if and only if it raises `disconnecting` (by `disconnect`, the timer or the peer's notice), the event is received and no unmapping failed. |
| MMFileTheorems.TimersAreKilledExactly | vb6/VLMessaging/VLMMMFileTransport.cls:314-362 | A timer that fires is killed if and only if its event is received, that of the buffers if and only if none is left; a refused `disconnecting` changes nothing. |
| MMFileTheorems.OfferedUntilRefused | vb6/VLMessaging/VLMMMFileTransport.cls:317-326 | Reading the slot and the timer for buffers hand over the queued buffers in order up to the first that the client refuses, and keep the rest. |
| MMFileTheorems.ConnectedIsRaised | vb6/VLMessaging/VLMMMFileTransport.cls:380-421 | Each side is connected as soon as it handles its greeting, and its `connected` timer is set if and only if the event was not received. |
| MMFileTheorems.SendsExactlyInRuns | vb6/VLMessaging/VLMMMFileTransport.cls:67-105 | In every reachable state what a `send` does: nothing when not connected, queueing while sending or connecting, otherwise slot and post, or the loss of the buffer. |
| MMFileTheorems.SendRaisesExactly | vb6/VLMessaging/VLMMMFileTransport.cls:67-91 | Which of its errors `send` raises, each with an if and only if: not connected, more than 1000 buffers queued, a buffer that does not fit with four bytes of header. |
| MMFileTheorems.SendsInEventsAreSent | vb6/VLMessaging/VLMMMFileTransport.cls:314-346 | Everything the client sends while a timer's events are raised is sent, in order, up to the event it refuses. |
| MMFileTheorems.SendsWhileReadingAreSent | vb6/VLMessaging/VLMMMFileTransport.cls:430-471 | The same while what was read is offered. |
| MMFileTheorems.SendsWhileGreetedAreSent | vb6/VLMessaging/VLMMMFileTransport.cls:380-421 | The same while `connected` is raised for the first time. |
| MMFileTheorems.ComplaintsGoOn | vb6/VLMessaging/VLMMMFileTransport.cls:433-481 | A slot whose buffer cannot be right is not read but complained of, and a complaint is handled like an acknowledgement. |
| MMFileTheorems.GreetsOrGivesUp | vb6/VLMessaging/VLMMMFileTransport.cls:140-185 | The endpoint that a listener makes is connecting, and its greeting posted, if and only if the requester's window is still there. |
| MMFileProtocol.NextOk | vb6/VLMessaging/VLMMMFileTransport.cls:308-488 | Every action in every phase of the connection keeps the invariant (greetings in order, tokens, contents, mapped files, timers). |
| MMFileProtocol.RunOk | vb6/VLMessaging/VLMMMFileTransport.cls:308-488 | The invariant holds after every run from a state in which it holds. |
| MMFileProtocol.EstablishedAct | vb6/VLMessaging/VLMMMFileTransport.cls:425-481 | What one action of an endpoint with a peer keeps in both directions at once, including a disconnect at any moment. |
| MMFileProtocol.GreetedConnector | vb6/VLMessaging/VLMMMFileTransport.cls:368-401 | Handling `connectionAgreed` leaves the connector connected to the listener's endpoint with its true file size, whatever was queued or is sent in the event. |
| MMFileProtocol.GreetedListener | vb6/VLMessaging/VLMMMFileTransport.cls:403-423 | Handling `agreementAcknowledged` ends the handshake: joined if the peer's file is there, never connected if it is gone. |
| MMFileProtocol.AcceptedByListener | vb6/VLMessaging/VLMMMFileListener.cls:99-104 | The listener's answer to a request starts the second phase of the handshake. |
| MMFileTransport.SendAllFrame | vb6/VLMessaging/VLMMMFileTransport.cls:67-105 | Sends inside an event touch nothing but the sending half and fault only through an unmapped file. |
| MMFileTransport.FileTransport.InitUsingRemoteHwnd | vb6/VLMessaging/VLMMMFileTransport.cls:140-185 | The endpoint that a listener makes: window, file and greeting, or the error and the flag taken back if the requester's window is gone. |
| MMFileTransport.FileTransport.ConnectTo | vb6/VLMessaging/VLMMMFileTransport.cls:188-222 | The endpoint that asks for a connection. |
| MMFileTransport.FileTransport.PrivateSendMessage | vb6/VLMessaging/VLMMMFileTransport.cls:86-105 | New fields, posted message and error of each of its four ends are those of the function that the protocol uses. |
| MMFileTransport.FileTransport.SendBuffer | vb6/VLMessaging/VLMMMFileTransport.cls:67-84 | Refused, queued (perhaps with the queue error) or sent at once, as the function says. |
| MMFileTransport.FileTransport.RaiseEvent | vb6/VLMessaging/VLMMMFileTransport.cls:309-321 | The sends of one event procedure happen in order, until one brings the process down. |
| MMFileTransport.FileTransport.DeliverQueued | vb6/VLMessaging/VLMMMFileTransport.cls:317-326 | The do-while loop offers buffers in order and stops at the first refusal. |
| MMFileTransport.FileTransport.DisconnectNow | vb6/VLMessaging/VLMMMFileTransport.cls:241-283 | Unmapping, the notice to the peer, and the end or the timer; what they are for is stated by PeerIsTold and WindowGoesExactly. |
| MMFileTransport.FileTransport.Finish | vb6/VLMessaging/VLMMMFileTransport.cls:285-301 | The window goes, and with it its timers and all connection flags. |
| MMFileTransport.FileTransport.NowConnectedEvent | vb6/VLMessaging/VLMMMFileTransport.cls:381-399 | Raising `connected`, its retry timer, and sending what was queued while connecting. |
| MMFileTransport.FileTransport.Agreed | vb6/VLMessaging/VLMMMFileTransport.cls:368-401 | The connector's half of the handshake. |
| MMFileTransport.FileTransport.Acknowledged | vb6/VLMessaging/VLMMMFileTransport.cls:403-423 | The listener's half of the handshake. |
| MMFileTransport.FileTransport.ProcessTimer | vb6/VLMessaging/VLMMMFileTransport.cls:314-362 | The three retry timers and when each is killed. |
| MMFileTransport.FileTransport.ReadSlot | vb6/VLMessaging/VLMMMFileTransport.cls:430-471 | Reading the slot, acknowledging, and offering what is queued. |
| MMFileTransport.FileTransport.ProcessWinProc | vb6/VLMessaging/VLMMMFileTransport.cls:308-488 | Every window message leaves the fields, posts and outcome of the function that the protocol theorems are about. |
| MMFileListener.OfferedInOrder | vb6/VLMessaging/VLMMMFileListener.cls:98-133 | In every run transports are received at most once and in the order of the requests, the rest waits in that order, and while any waits the timer is set. |
| MMFileListener.OfferDrains | vb6/VLMessaging/VLMMMFileListener.cls:118-132 | One timer event with enough acceptances empties the queue and kills the timer. |
| MMFileListener.NewTransportIsOffered | vb6/VLMessaging/VLMMMFileListener.cls:99-114 | A request's transport is offered at once, behind those that wait, up to the first refusal, and the timer is set if any is left. |
| MMFileListener.TimerOffers | vb6/VLMessaging/VLMMMFileListener.cls:116-133 | The timer offers those that wait up to the first refusal and is killed if and only if none is left. |
| MMFileListener.FileListener.OfferQueued | vb6/VLMessaging/VLMMMFileListener.cls:105-110 | The do-while loop over the queue. |
| MMFileListener.FileListener.ConnectionRequested | vb6/VLMessaging/VLMMMFileListener.cls:99-114 | A request makes a fresh greeting transport and offers the queue; one without a window, or whose window is gone, leaves the queue alone. |
| MMFileListener.FileListener.TimerFires | vb6/VLMessaging/VLMMMFileListener.cls:116-133 | The retry. |
| MachineRouter.IdsThroughRun | vb6/VLMMachineRouter/cMachineRouter.cls:173-181 | In every run the two id dictionaries stay mutual inverses with ids in 2..seed, and no number is changed or reused. |
| MachineRouter.AllocatedIdIsForGood | vb6/VLMMachineRouter/cMachineRouter.cls:173-252 | The id told to a transport is its own for good: asked for at machine 0, router 1, agent 1, and asked again, it is the same, other transports get others, and every message to it, agent 1 included, goes out on that transport while that is there. |
| MachineRouter.ServicesAreTheRegistered | vb6/VLMMachineRouter/cMachineRouter.cls:189-235 | After any run GET_SERVICES to machine 0, router 1, agent 1 answers exactly what a map keyed by service and address would hold of the service asked for. |
| MachineRouter.OwnAddressExactly | vb6/VLMMachineRouter/cMachineRouter.cls:149-163 | In every run a message is answered by the machine router itself if and only if it is for machine 0, router 1, agent 1; any other changes nothing and goes out unchanged on the transport that was told its router id, if there is one. |
| MachineRouter.RequestsAreAnswered | vb6/VLMMachineRouter/cMachineRouter.cls:165-239 | In every run the exact reply to each of the four requests, written out, when instead an error is raised or nothing sent, and what the request leaves alone. |
| MachineRouter.TransportsAreNumbered | vb6/VLMessaging/VLMMMFileTransports.cls:35-41 | A new transport is live under the next number, unless that would overflow. |
| MachineRouter.ServicesInOrder | vb6/VLMMachineRouter/cMachineRouter.cls:211-229 | The services answered are in the order in which the dictionary holds them. |
| MachineRouter.RegisteringKeepsPlaces | vb6/VLMMachineRouter/cMachineRouter.cls:189-206 | In every run registering replaces an entry with the same service and address at its place, or appends; unregistering closes the gap. |
| MachineRouter.RunRepresents | vb6/VLMMachineRouter/cMachineRouter.cls:189-206 | The string-keyed entries represent that map through every run; unregistering removes only its own entry. |
| MachineRouter.RouterMachine.HandleMessageToRouter | vb6/VLMMachineRouter/cMachineRouter.cls:165-239 | Each request changes ids and entries and is answered as specified; a numeric filter is printed, other contents raise. |
| MachineRouter.RouterMachine.GetRouterId | vb6/VLMMachineRouter/cMachineRouter.cls:173-187 | Allocation, including the overflow of the seed. |
| MachineRouter.RouterMachine.GetServices | vb6/VLMMachineRouter/cMachineRouter.cls:212-223 | The loop over the dictionary's items; what it finds is stated by ServicesAreTheRegistered and ServicesInOrder. |
| MachineRouter.RouterMachine.RouteMessage | vb6/VLMMachineRouter/cMachineRouter.cls:241-252 | Which transport a message goes out on, if any. |
| MachineRouter.RouterMachine.BytesArrived | vb6/VLMMachineRouter/cMachineRouter.cls:149-163 | Messages to the router's own address are handled, all others passed on; which address that is, is stated by OwnAddressExactly. |
| MachineRouter.FileTransports.AddTransport | vb6/VLMessaging/VLMMMFileTransports.cls:35-41 | Numbers are given in sequence and never again. |
| MachineRouter.FileTransports.RemoveTransport | vb6/VLMessaging/VLMMMFileTransports.cls:43-59 | Only that transport goes and the seed stays. |
| IdString.KeyInjective | vb6/VLMMachineRouter/cMachineRouter.cls:254-256 | Two printed keys are equal if and only if service, machine, router and agent are, for every service name and all integers. |
| IdString.AddressStringInjective | vb6/VLMMachineRouter/cMachineRouter.cls:254-256 | The printed address can be taken apart into its three integers. |
| Messaging.Router.RouteMsg | py/vlmessaging/_core.py:478-497 | Routing to an inbox, to a peer, or into a notice, with its recursion; a message that no pipe can carry is told apart, and what then becomes of it (the error, or the accumulation) is stated by SocketBundle.NngSocketBundle.RouteTo and SendAccumulated, and for the router's main loop by Correlation.RouterStopsExactly. Where messages and notices end up is stated by Correlation.SendsGoWhereTheySay and CarriedGoesWhereItSays. |
| Messaging.Connection.SendMsg | py/vlmessaging/_core.py:175-220 | Numbering, reply address and pending future of `send` up to its `await`. |
| Messaging.Connection.DeliverReply | py/vlmessaging/_core.py:222-234 | Which arriving message resolves which pending future. |
| Messaging.Connection.FinishSend | py/vlmessaging/_core.py:197-215 | What a waiting `send` returns, and that its key is gone. |
| Messaging.Router.NewConnection | py/vlmessaging/_core.py:376-377 | A new connection gets the next number, which is never in use, the router's own address with it, an empty inbox, and is registered. |
| Messaging.Router.Connect | py/vlmessaging/_core.py:449-455 | The same for any number that is not in use. |
| Messaging.Router.NewDirectoryConnection | py/vlmessaging/_core.py:980-983 | A directory's connection has its fixed number, and a second directory is refused. |
| Messaging.Router.MEpListen | py/vlmessaging/_core.py:739-743 | A machine endpoint is listened on once, and the first one stays the router's address. |
| Messaging.Router.DropInboxFor | py/vlmessaging/_core.py:457-459 | A dropped connection's inbox is gone. |
| Correlation.RepliesAnswerTheirRequest | py/vlmessaging/_core.py:175-234 | In any run of any routers and connections, a `send` that returns a message returns one made by replying to that very request, with an accepted subject, once; pending keys are ids that the connection has issued. Agents may reply at the router of delivery, and anywhere if the reply address names a machine endpoint. |
| Correlation.ReplyIsGoodExactly | py/vlmessaging/_core.py:133-136 | In every run, a reply made at a router is addressed to the connection whose request it answers if and only if the message was delivered at that router or its reply address names a machine endpoint. |
| Correlation.ResultsStay | py/vlmessaging/_core.py:197-234 | Nothing that arrives later changes what a `send` returned. |
| Correlation.RepliesFindTheirWay | py/vlmessaging/_core.py:178-185 | In every run, the answer of any connection that may answer a message arrives in the sender's inbox, at once, or when it is carried over the wire, exactly if the sender's router is still running; its own reply address leads back. Only a LOCAL_MODE router that the message was handed to from elsewhere cannot send it. |
| Conversation.EveryAnswerIsDelivered | py/vlmessaging/_core.py:175-234 | However often two agents on running routers answer each other, by a proper run each answer is delivered to the other's hands as the answer to the very message that one sent before, with the given subject and contents, and the turns alternate. |
| Conversation.AnyoneMayTalk | py/vlmessaging/_core.py:222-240 | Such a conversation can start in any run from any message in an agent's hands, if both routers are running. |
| Correlation.SendRaisesExactly | py/vlmessaging/_core.py:478-497 | In every run sending a new message raises if and only if it is for a network endpoint or leaves a LOCAL_MODE router; `_mRoute`'s missing-endpoint error is never met. |
| Correlation.SendsGoWhereTheySay | py/vlmessaging/_core.py:478-501 | In every proper run a message sent to any address of this machine goes, complete, behind what is in the inbox it names, or onto the wire; if there is no such inbox on its own router, exactly one MSG_NOT_DELIVERED goes into the sender's inbox, as the reply to that message, unless it was itself a MSG_NOT_DELIVERED. Nothing else changes. |
| Correlation.RepliesGoWhereTheySay | py/vlmessaging/_core.py:133-136 | The same for a reply, which goes to the reply address of the message it answers and carries its number. |
| Correlation.CarriedGoesWhereItSays | py/vlmessaging/_core.py:487-494 | The same for a message that the wire carries to a router; the notice about it reaches its sender if that is on this router. |
| Correlation.SendsAreNumbered | py/vlmessaging/_core.py:175-196 | In every proper run a send uses up one id; with a timeout, and unless it raises, it waits for a reply to that id with its own subject or an additional one. |
| Correlation.DeliveriesResolveExactly | py/vlmessaging/_core.py:222-234 | In every proper run a delivery takes the next message out of the inbox and gives it to a waiting send if and only if it is the first reply to that send and has an accepted subject. |
| Correlation.FinishesWithItsReply | py/vlmessaging/_core.py:197-215 | A finished send returns the reply it got, or Missing without one or at shutdown, and no other send is touched. |
| Correlation.AddressedRun | py/vlmessaging/_core.py:449-450 | In every proper run each connection's own address is its number at the first endpoint of its router. |
| Correlation.NoticesDoNotCross | py/vlmessaging/_core.py:487-494 | The notice about an undeliverable message from the wire reaches its sender if and only if the sender is on that very router and still there; if and only if it is on another router the notice cannot be sent. |
| Correlation.RouterStopsExactly | py/vlmessaging/_core.py:618-621 | In every run, an action ends the main loop of a running router if and only if it hands it a message from another router for an inbox that is not there, no notice itself, while the pipe for the notice is known. |
| Correlation.StoppedServesNothing | py/vlmessaging/_core.py:512-535 | A router whose main loop has ended hands nothing to its agents in any continuation. |
| Correlation.NoticeStopsRouter | py/vlmessaging/_core.py:487-497 | A run that ends one: a connection writes to one that the other router never had. |
| Correlation.MisdirectedReplyMisleads | py/vlmessaging/_core.py:133-136 | A run in which a reply made on another router's connection is returned as the answer to a request it does not answer. |
| Correlation.NextOk | py/vlmessaging/_core.py:175-234 | Every step of routers, connections, agents and the wire keeps where all addresses lead and what all ids mean. |
| Correlation.RouteOk | py/vlmessaging/_core.py:478-497 | Routing keeps a message's addresses good, and a notice about it leads back to its sender. |
| AutoReply.FollowInstructions | py/vlmessaging/_core.py:246-267 | The loop over an instruction list. |
| AutoReply.QuietExactly | py/vlmessaging/_core.py:246-265 | A list never answers a reply if and only if it ignores unhandled replies before it says it does not understand. |
| AutoReply.ListDoes | py/vlmessaging/_core.py:246-267 | For every list and message: which instructions answer, with which replies and in which order, and when the list handles, shuts down or raises; a PING is answered by a reply with subject PING. |
| AutoReply.PingIsAnsweredOnceExactly | py/vlmessaging/_core.py:246-267 | For every list, a PING is answered as often as there are HANDLE_PING and HANDLE_DOES_NOT_UNDERSTAND before an unknown instruction, and exactly once if and only if that number is one. |
| DieOut.AutomaticRepliesDieOut | py/vlmessaging/_core.py:222-279 | With lists that never answer replies, or with a handler for every inbox and any lists, no schedule of deliveries on a router can go on for ever, whatever the inboxes hold. |
| DieOut.DeliverLowersRank | py/vlmessaging/_core.py:222-279 | Each such delivery lowers the counts of requests, replies and last replies lexicographically. |
| DieOut.AwaitedOrAnswered | py/vlmessaging/_core.py:222-279 | A delivered message either is an awaited reply with an accepted subject, becomes the send's result and is answered by nothing, or goes to the handler's list, or is bounced if there is none. |
| DieOut.EndlessExactly | py/vlmessaging/_core.py:222-279 | On a router with given inboxes, handlers and lists, deliveries can go on for ever from some contents of the inboxes if and only if some list answers replies, some inbox has a handler and some has none. |
| DieOut.ToAndFroNeverStops | py/vlmessaging/_core.py:222-279 | Whatever list answers replies, its connection and one without a handler answer each other for ever. |
| DieOut.DirectoryNeverStops | py/vlmessaging/_core.py:1142-1143 | A concrete router on which a directory and a connection without a handler do so. |
| SocketBundle.NothingLost | py/vlmessaging/_core.py:804-883 | In every run and for every endpoint, what routing took on is as a multiset what was sent, what is accumulated and what was dropped at a failed encoding; known endpoints always have a pipe. |
| SocketBundle.DialSendsInOrder | py/vlmessaging/_core.py:804-817 | A completed dial sends the accumulated messages in queue order to that endpoint alone, and drops some if and only if one has no reply address. |
| SocketBundle.GreetedPipeIsUsed | py/vlmessaging/_core.py:539-554 | A pipe whose other end greets is the one that every later message to that endpoint goes out on, whatever is dialled, until another one greets. |
| SocketBundle.DialledPipeIsUsed | py/vlmessaging/_core.py:804-813 | Without a greeting from there it is the pipe that was dialled first. |
| SocketBundle.DialGreetsFirst | py/vlmessaging/_core.py:811-817 | A completed dial first says who we are on its pipe and then sends what was accumulated on the same pipe. |
| SocketBundle.FirstGreetingCounts | py/vlmessaging/_core.py:539-552 | A second greeting on a pipe changes nothing; an endpoint that had pipes before is noted as having too many. |
| SocketBundle.NobodyIsAnonymous | py/vlmessaging/_core.py:804-817 | In every run a pipe carries a message only behind our greeting or after the other end's. |
| SocketBundle.LogIsWhatWasSent | py/vlmessaging/_core.py:874-883 | In every run what went out on pipes to an endpoint is, in that order, what counts as sent to it. |
| SocketBundle.OrderKept | py/vlmessaging/_core.py:804-883 | The whole order of routing is kept in every run in which nothing overtakes and nothing is dropped. |
| SocketBundle.NoRouteBackNoOvertaking | py/vlmessaging/_core.py:539-554 | Without a greeting from the other side, messages with a reply address are never disturbed. |
| SocketBundle.OrderKeptExactly | py/vlmessaging/_core.py:874-883 | One event keeps the order if and only if it neither overtakes nor drops. |
| SocketBundle.OvertakingHappens | py/vlmessaging/_core.py:539-554 | A run in which a greeting lets the second message go first. |
| SocketBundle.LosingHappens | py/vlmessaging/_core.py:814-817 | A run in which a notice without a reply address is accumulated first, and it and the message after it are dropped. |
| SocketBundle.NngSocketBundle.RouteTo | py/vlmessaging/_core.py:874-883 | Dial, accumulate, send or turn away. |
| SocketBundle.NngSocketBundle.OutgoingConnected | py/vlmessaging/_core.py:804-817 | The callback of a completed dial. |
| SocketBundle.NngSocketBundle.SendAccumulated | py/vlmessaging/_core.py:814-817 | The loop over the accumulated messages, which ends at the first that cannot be encoded. |
| SocketBundle.NngSocketBundle.RouteBackReceived | py/vlmessaging/_core.py:539-554 | The first greeting on a pipe makes that pipe the first of its endpoint; later ones change nothing. |
| TimerLoop.LoopKeepsItsPromises | py/vlmessaging/_core.py:637-678 | In every interleaving: no function is taken early, batches are taken in the order of due times, each scheduled function is pending, removed or taken exactly once, and while the loop waits either the event is set or nothing is due before the deadline. |
| TimerLoop.EverythingDueIsTaken | py/vlmessaging/_core.py:646-676 | Left alone until a time, the loop takes in as many rounds as there are due times exactly what is due, complete and in scheduling order, earliest first, and leaves exactly the rest. |
| TimerLoop.WokenOncePerScheduling | py/vlmessaging/_core.py:662-665 | In every run the changed event ends a wait at most once for each function scheduled, so the loop does not spin. |
| TimerLoop.SchedulingWakes | py/vlmessaging/_core.py:379-388 | In every run scheduling sets the event only for what is due before all that is pending, and during a wait if and only if it is due before the deadline. |
| TimerLoop.PendingTimesHaveFunctions | py/vlmessaging/_core.py:390-401 | In every run a pending time has a function to run. |
| TimerLoop.UnscheduleTakesOneEach | py/vlmessaging/_core.py:390-395 | An unscheduled function stays pending at a time if and only if it was listed there twice. |
| TimerLoop.TimesStep | py/vlmessaging/_core.py:379-401 | Every event keeps the next time before all pending ones, wakeups and the order. |
| TimerLoop.BalanceStep | py/vlmessaging/_core.py:379-401 | Every event keeps the account of every due time balanced. |
| TimerLoop.TimerList.Schedule | py/vlmessaging/_core.py:379-388 | Scheduling appends, and sets the event if it is sooner than the next time. |
| TimerLoop.TimerList.Unschedule | py/vlmessaging/_core.py:390-395 | The loop over all times. |
| TimerLoop.TimerList.UnscheduleAt | py/vlmessaging/_core.py:397-401 | One occurrence at one time. |
| TimerLoop.TimerList.Decide | py/vlmessaging/_core.py:646-649 | The loop finds the least pending time. |
| TimerLoop.TimerList.Wake | py/vlmessaging/_core.py:662-673 | After a wait: the event is cleared if noticed, and the batch that is due is taken whole. |
| Directory.KeysStayUnique | py/vlmessaging/_core.py:1059-1150 | In every run of messages and heartbeats no two entries have the same address, service and parameters. |
| Directory.RegisterAndShareOnlyAppend | py/vlmessaging/_core.py:1063-1121 | Registering and sharing leave existing entries as they are and in place, and add exactly the new keys; a share with one malformed entry changes nothing. |
| Directory.AnswersAreTheService | py/vlmessaging/_core.py:1088-1092 | GET_ENTRIES for a service is answered with exactly the entries of that service, for none with all, in the order of registration, and changes nothing. |
| Directory.RegisterIs | py/vlmessaging/_core.py:1063-1072 | Registering appends the entry unless one with its address, service and parameters is there. |
| Directory.UnregisterAddrIs | py/vlmessaging/_core.py:1081-1086 | Unregistering an address drops exactly the entries with that address and keeps the order of the others. |
| Directory.UnregisterEntryIs | py/vlmessaging/_core.py:1074-1079 | Unregistering an entry drops exactly that entry. |
| Directory.HeartbeatIs | py/vlmessaging/_core.py:1146-1150 | A heartbeat drops exactly the entries at stale addresses, keeps the order of the others and asks all of their addresses. |
| Directory.SharedEntriesAreTaken | py/vlmessaging/_core.py:1106-1121 | What a share adds are entries that came with it, unchanged but for an empty list of permissions. |
| Directory.SharedInOrder | py/vlmessaging/_core.py:1137-1140 | A share from a router of this machine is answered with the entries that have vnets, in order. |
| Directory.EntriesToShareInOrder | py/vlmessaging/_core.py:1031-1032 | What a router shares with its machine hub is in the order of its entries. |
| Directory.NetworkShareInOrder | py/vlmessaging/_core.py:1126-1136 | A network hub is given the router's own entries in the directory's vnets, in order, with only the network endpoint of their addresses changed. |
| Directory.AnswersExactly | py/vlmessaging/_core.py:1059-1143 | Which messages are refused, answered by silence, by vnets or by the instruction list, and which raise, each with an if and only if. |
| Directory.VnetsAreTheLastTold | py/vlmessaging/_core.py:1094-1099 | In every run the vnets known of a hub are those it told last. |
| Directory.UnregisterUndoesRegister | py/vlmessaging/_core.py:1063-1079 | Registering and then unregistering an entry restores the entries if and only if that entry was not there. |
| Directory.ShareRepliesEndTheExchange | py/vlmessaging/_core.py:1122-1140 | Only a share that is no reply is answered with entries: a machine router gets all with vnets, a network hub the own entries in the directory's vnets under the hub's address for it; a share reply never causes another share. |
| Directory.SharingStopsExactly | py/vlmessaging/_core.py:1028-1032 | Sharing with the hub raises if and only if some entry has no vnets, and otherwise shares exactly the entries for the local vnet. |
| Directory.EvictionIsExact | py/vlmessaging/_core.py:1146-1150 | In every run an entry is dropped at a heartbeat if and only if its address was left by the heartbeat before and no message came from that address since. |
| Directory.PotentiallyStaleIs | py/vlmessaging/_core.py:1060-1060 | At every moment the stale addresses are the survivors of the last heartbeat less those heard from since. |
| Directory.AnsweringKeepsEntries | py/vlmessaging/_core.py:178-185 | In every run, an agent that has answered the directory's ping since the last heartbeat keeps its entries at the next: the answer comes from exactly the registered address. |
| Directory.ShortAddressRefreshesExactly | py/vlmessaging/_core.py:178-181 | In every run, an entry left by the last heartbeat, whose agent has since written to the directory by its short address only, is kept at the next if and only if its router has no machine endpoint. |
| Directory.ShortAddressLosesEntry | py/vlmessaging/_core.py:290-291 | A run in which an agent registers, asks for entries by the short address after a heartbeat, and loses its entry at the next. |
| Directory.RouterDirectory.Receive | py/vlmessaging/_core.py:1059-1143 | New entries, stale addresses, known vnets and answer of every message. |
| Directory.RouterDirectory.Share | py/vlmessaging/_core.py:1104-1140 | Parse all, then merge with the nested loops, then answer the machine router or the network hub. |
| Directory.RouterDirectory.ShareWithNetworkHub | py/vlmessaging/_core.py:1123-1136 | The loop that picks and re-addresses entries, and its exception. |
| Directory.RouterDirectory.HeartbeatEntries | py/vlmessaging/_core.py:1146-1150 | Eviction and the addresses to ping. |
| Directory.RouterDirectory.ShareWithHub | py/vlmessaging/_core.py:1031-1032 | The list to share, or the exception. |
| Replication.TwoExchangesSuffice | py/vlmessaging/_core.py:1028-1140 | One hub, any number of spokes, shares and replies in any order, clients registering meanwhile: when every spoke has finished one exchange and then another, every directory knows all that any knew at first, and nothing that was not known at first or registered since. |
| Replication.DirectoriesConverge | py/vlmessaging/_core.py:1028-1140 | Without new registrations all directories then have exactly the union of the first keys. |
| Replication.OneExchangeIsNotEnough | py/vlmessaging/_core.py:1104-1140 | After one exchange each, whoever went first misses what only a later spoke knew. |
| Replication.ExchangeGives | py/vlmessaging/_core.py:1028-1140 | A whole exchange gives both sides the union of what both knew and leaves the others alone. |
| LoggingConfigure.MostSpecificWins | py/vlmessaging/_utils/logging.py:218-249 | For names without characters below '*', every logger that existed has the level of its own pattern, else of its longest matching wildcard, else of '*', else its old one. |
| LoggingConfigure.LevelsInside | py/vlmessaging/_utils/logging.py:218-249 | The same written out on the settings: an existing logger without characters below '*' has its own setting's level, else that of the longest "p.*" with "p." a prefix of its name, else that of '*', the root logger included, else its old level. |
| LoggingConfigure.NamedLevels | py/vlmessaging/_utils/logging.py:245-249 | For all names: inside the block there are the old loggers and those named by a plain setting, and each of these has that setting's level whatever else matches it. |
| LoggingConfigure.MostSpecificWinsExactly | py/vlmessaging/_utils/logging.py:218-249 | For all names: the setting applied last is the most specific one if and only if no other matching wildcard is followed in the name by a character below '*'. |
| LoggingConfigure.LongerComesLater | py/vlmessaging/_utils/logging.py:222-222 | Of two matching wildcards the longer is sorted later if and only if the name goes on with a character not below '*'. |
| LoggingConfigure.ShorterWildcardCanWin | py/vlmessaging/_utils/logging.py:237-244 | A name and two patterns for which the shorter wins. |
| LoggingConfigure.WildcardMissesItsParent | py/vlmessaging/_utils/logging.py:237-244 | 'A.*' leaves the logger 'A' as it is. |
| LoggingConfigure.LevelsAreRestored | py/vlmessaging/_utils/logging.py:218-257 | After any well-nested program of `configure` blocks, with any patterns, every logger that existed has its level back and every new one has level 0. |
| LoggingConfigure.ExecOnlyCreates | py/vlmessaging/_utils/logging.py:251-257 | Such a program has the same effect as asking for the same loggers without setting any level. |
| LoggingConfigure.SortedIs | py/vlmessaging/_utils/logging.py:222-222 | The order is strict and has exactly the given settings. |
| LoggingConfigure.LogManager.Enter | py/vlmessaging/_utils/logging.py:218-249 | The loop over the sorted patterns, and what it notes for leaving. |
| LoggingConfigure.LogManager.SetAll | py/vlmessaging/_utils/logging.py:233-244 | The loop over all loggers for '*' and for a wildcard. |
| LoggingConfigure.LogManager.SetOne | py/vlmessaging/_utils/logging.py:245-249 | A plain name creates its logger with level 0 first, notes that level and sets its own; what remains of it at the end is stated by NamedLevels. |
| LoggingConfigure.LogManager.Leave | py/vlmessaging/_utils/logging.py:253-257 | The loop that restores. |

## Left out

Of the shared-memory transport:

- Win32 calls that fail for other reasons than a vanished window or file (creating windows, a zero-sized mapping, finding the listener), tracing, and the limits of a window's mailbox.
- `disconnect` called from inside an event, pumping messages inside an event, sends inside `disconnecting`, a second connection on the same object, and `disconnect` before the handshake is over on the endpoint's own side.
- Event procedures are taken to handle the errors that their own sends raise.
- The weak references between windows, transports and their collection.

Of the message core:

- Correlation.RepliesAnswerTheirRequest: leaves out replies to an address without machine endpoint made at another router than that of delivery; ReplyIsGoodExactly and MisdirectedReplyMisleads show that they go astray.
- Whether the pipe for a notice is known is a choice of each Carry in Correlation, not the state of SocketBundle. A connection's number is not given out again; a second directory after the first was collected is not modelled.
- Automatic answers are followed on one router; handlers there answer only through their lists, and no list shuts the router down.
- TimerLoop.LoopKeepsItsPromises: delays are natural numbers and the clock does not go back; a function unscheduled after its batch was taken counts as taken.
- A notice's contents, the address that could not be reached: contents are texts here, and a notice has none.
- Messages are values: sending one `Msg` object twice, presetting its reply address or changing it after sending is not modelled, nor that a GET_ENTRIES reply on the same router is the directory's own list.
- TCP endpoints, reply-address rewriting and `_nRoute`, gateways and beacons, and what a directory sends to network hubs by itself: unfinished in the source.
- Disconnecting pipes, dial timeouts, non-blocking sends that fail, the Ion encoding apart from what it needs of a reply address, and the order in which coroutines started by `cosend` proceed.
- `_ensureNetwork`'s own timing (a share may happen at any time) and the single scheduling of `_heartbeatEntries` (a heartbeat may happen at any time, any number of times).
- Replication.TwoExchangesSuffice: is about entries for the local vnet, without unregistering or eviction, and with one hub.
- Shutdown of a router, except that it makes a waiting `send` return nothing.

Of the machine router:

- Numeric contents of GET_SERVICES are integers; VB would also print fractions and dates. Scripting dictionaries treat equal numbers of different types as the same key; ids are integers here. Address parts keep VB's Integer range, the seed its Long range.
- Encoding messages as bytes, replies that a closing transport refuses, the PING_REPLY branch, which is empty, routing to remote machines, which is not written, the tray icon, and `cApplication.cls`, an older copy.

Of the logging helpers:

- `enable`, sinks, formatting, the `>>` operator, and `levels=None`, which does nothing.
- Placeholders in the logger dictionary (they become loggers when asked for), loggers that are not `logging.Logger`s, and that some Python versions take the name 'root' for the root logger.
