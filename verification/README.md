# Network-Chat: a verified model

Network-Chat is a console chat: clients connect to one server, ask it to pair them with another
client, and exchange text through it. This project models its protocol code and the two stream
buffers of the Asio library it ships, and proves what they keep over whole runs. To check the
proofs: `dafny verify dfyconfig.toml`.

| file | what it models |
|---|---|
| `bytes.dfy`, `options.dfy` | bytes, 32-bit numbers, validation codes and their object representation |
| `message.dfy` | messages and their typed push and pop operators (`MessageObject`) |
| `framing.dfy` | how messages lie on the wire and how a reader cuts bytes back into messages |
| `connection.dfy` | one connection: its handlers (`Connection`) and what each does to an `Endpoint` |
| `link.dfy`, `handshake.dfy`, `delivery.dfy` | two connections joined by two byte streams, the invariant of all runs, and the results |
| `progress.dfy` | that such a pair, left to itself, stops, and stops only when everything is delivered |
| `tsqueue.dfy`, `tsqueue_progress.dfy` | the two-mutex queue and the message loop's `Update`, as interleaved thread steps; from where it can finish |
| `server.dfy`, `matching.dfy`, `server_runs.dfy`, `server_steps.dfy` | the pairing server (`ChatServer`), conversations as disjoint pairs, all its runs, and what each type of message does |
| `client.dfy`, `acceptance.dfy` | what a client makes of the server's answers, of other clients' requests, and of the message that accepts it |
| `relay.dfy` | a line of text on its way over both connections and the server between them |
| `command.dfy` | parsing of typed commands |
| `streambuf.dfy` | the growable stream buffer, refining a bounded queue |
| `socket_streambuf.dfy` | buffered writing to a socket that accepts as little as it likes |

Classes carry the fields the source updates in place; their methods are proved equal to functions
on an immutable state, and the results are lemmas about those functions. Threads and event loops
are state machines whose steps interleave freely. The wire is a byte sequence: an initiated write
hands over its bytes in pieces of any size, oldest write first, and may fail part-way; a read takes
exactly what it asked for. The history fields `greeting`, `popped`, `delivered`, `broken`, `failed`,
`pushed`, `handled`, `base`, `sent` and `reported` record what happened and influence no step;
`Links.Polite`, which says which runs are considered, reads `greeting`.

What the proofs say about the code, where a first guess would be wrong:

* An empty message is delivered with the body the reader's buffer held before
  (`EmptyMessageArrivesWithStaleBody`). What arrives is what was sent exactly if every header announces
  its own body and no empty message follows a non-empty one (`ArrivesAsSentIff`, over whole runs
  `DeliveredAsSentIff`).
* `push_back` and `wait` take the two mutexes in opposite orders. The deadlock is final and the only way
  to get stuck with work to do; it can happen exactly if there is a producer and Update waits, as the
  server's own call does (`StuckIff`, `DeadlockPossibleIff`, `DeadlockIsFinal`). The point of no return lies
  before it: all that was pushed can still be handled exactly if the two have not begun to cross
  (`FinishableIff`).
* A paired-only message from a client without a partner throws out of the message loop
  (`UnpairedThrows`). Undefined behaviour is reached by exactly two kinds of messages: a request body
  shorter than an id (`ShortRequestUndefined`), and, once ids have repeated, text for a partner whose id
  another member shares while the first of them is gone (`OutcomeIff`, `RepeatedIdUndefined`).
* A declined request leaves the two clients paired on the server, busy for everyone else, while neither
  of them takes itself to be connected (`RequestAnswered`, `DeclinedStaysBusy`).
* A failed `reserve` may already have moved the bytes; every content survives exactly if the move did
  not overlap it (`SmearedIntactIff`; two bytes lost in `FailedPrepareSmears`).
* A failed `overflow` keeps its put area, so bytes are repeated exactly if some had been accepted
  (`FailureRepeatsIff`; on the wire in `RetrySendsTwice`).
* A code read that returns fewer than eight bytes still accepts an honest answer exactly if all the
  missed bytes are zero (`ShortReadAcceptsIff`, as a step `ShortReadOpensIff`).

Assumptions. Numbers are stored least significant byte first. In runs of two joined connections the
eight code bytes arrive in one read and a client sends nothing before its own code has been handed to
the socket (`Links.Polite`); the results about a server facing an arbitrary peer need neither. Accepts,
socket closings and message handling of the server are serialised. In the chat server a connection is
named by its order of acceptance, ids wrap at 2^32, and `IdsFresh` and `NotWrapped` say how far that is
away. After a message that throws, the model goes on with an unchanged server, where the program stops.

## Model

| member | source | states |
|---|---|---|
| Bytes.LittleEndianRoundTrip | Net_chat/net_message.h:35-43 | a number that fits its width is read back from its object representation |
| Bytes.LittleEndianInverse | Net_chat/net_message.h:46-54 | every byte string is the representation of the one number it reads as |
| Bytes.LittleEndianAt | Net_chat/net_message.h:35-43 | byte i is the number's digit i in base 256, least significant first |
| Messages.PopAfterPush | Net_chat/net_message.h:34-80 | popping the matching type returns the pushed value and the body below it, for objects and strings |
| Messages.TextLayout | Net_chat/net_message.h:57-66 | where a pushed string lies: below it the old body, then its characters, then their count as eight bytes |
| Messages.PushAfterPop | Net_chat/net_message.h:46-80 | whatever a pop took off, pushing it again rebuilds the body, for every body on which the pop is defined |
| Messages.CodecRoundTrip | Net_chat/net_message.h:34-80 | any list of pushes is undone by popping the matching types in reverse, with every value returned |
| Messages.MessageObject.Append | Net_chat/net_message.h:38-40 | growing and copying leaves the old body followed by the new bytes |
| Messages.MessageObject.PushFixed | Net_chat/net_message.h:34-43 | the body gains the object's bytes; header id kept, size follows the body modulo 2^32 |
| Messages.MessageObject.PopFixed | Net_chat/net_message.h:45-54 | returns the top bytes and leaves the body below them; size follows the body |
| Messages.MessageObject.PushText | Net_chat/net_message.h:57-66 | the body gains the characters and then their 8-byte count; size follows the body |
| Messages.MessageObject.PopText | Net_chat/net_message.h:68-80 | the pushed characters are appended to the target string and leave the body |
| Framing.ParseAppend | Net_chat/net_connection.h:104-143 | reading can stop after any byte and go on later from the buffer and the undigested bytes |
| Framing.FrameLayout | Net_chat/net_connection.h:145-193 | the wire format of a message, byte by byte |
| Framing.ParseFrames | Net_chat/net_connection.h:104-205 | a stream of well-formed frames is read as the carry fold of its messages with nothing left over |
| Framing.FramingFaithfulIff | Net_chat/net_connection.h:104-205 | delivery equals the carry fold with no bytes left over if and only if every header announced its own body |
| Framing.FoldIsIdentityIff | Net_chat/net_connection.h:112-119 | a fold of well-formed messages changes none of them iff no empty one meets a non-empty buffer |
| Framing.ArrivesAsSentIff | Net_chat/net_connection.h:104-205 | what is parsed is what was sent, with nothing left over, iff every header announced its own body and no empty message met a non-empty buffer |
| Framing.FoldWellFormedIff | Net_chat/net_connection.h:112-119 | all delivered messages are well-formed again iff no empty message follows a non-empty one (or a non-empty buffer) |
| Framing.RelayFaithfulIff | ChatServer/Server.cpp:103 | forwarding messages as delivered is read back faithfully iff no empty message followed a non-empty one |
| Framing.EmptyMessageArrivesWithStaleBody | Net_chat/net_connection.h:112-119 | a concrete stream whose empty message arrives with the byte of the message before it |
| Connections.ScrambleIsXor | Net_chat/net_connection.h:207-211 | on 64-bit numbers the model's scrambling is exclusive or with 0xdfca |
| Bytes.CodeRoundTrip | Net_chat/net_connection.h:207-211 | 64-bit numbers and their object representations correspond one to one |
| Connections.ScrambleInvolution | Net_chat/net_connection.h:207-211 | scrambling undoes itself and never answers a code with itself |
| Connections.Connection.constructor | Net_chat/net_connection.h:25-34 | only a server-side connection starts with a code and the answer it expects |
| Connections.Connection.ConnectToClient | Net_chat/net_connection.h:44-55 | an open server side takes the id, hands its code to the socket and waits for the answer |
| Connections.Connection.OnPosted | Net_chat/net_connection.h:92-100 | the oldest posted message joins the queue; a write starts only if the queue was empty |
| Connections.Connection.OnWritten | Net_chat/net_connection.h:149-230 | completion of the oldest write: body after header, next header after a frame, closing on error |
| Connections.Connection.OnHeaderRead | Net_chat/net_connection.h:104-126 | a header either asks for its body or enqueues the buffer as it is |
| Connections.Connection.OnBodyRead | Net_chat/net_connection.h:128-143 | the buffer with the arrived body is enqueued and the next header is awaited |
| Connections.Connection.OnCodeRead | Net_chat/net_connection.h:232-265 | a server side reads messages only after the expected answer, else closes; a client answers |
| Links.PostedKeepsPump | Net_chat/net_connection.h:89-101 | running a posted Send keeps the write pump's invariant |
| Links.MoveKeepsPump | Net_chat/net_connection.h:145-193 | partial transfers keep the stream equal to greeting, popped frames and the begun front |
| Links.WrittenKeepsPump | Net_chat/net_connection.h:145-193 | every write completion keeps the write pump's invariant |
| Links.WriteErrorKeepsPump | Net_chat/net_connection.h:164-190 | every failed write keeps it too, with no frame write left outstanding |
| Handshake.HeaderKeepsPlace | Net_chat/net_connection.h:104-126 | after a header the reader stands where parsing all bytes read so far stands |
| Handshake.BodyKeepsPlace | Net_chat/net_connection.h:128-143 | after a body the reader stands where parsing all bytes read so far stands |
| Handshake.ClientReadsServerCode | Net_chat/net_connection.h:232-256 | the code a client reads is the one its server sent |
| Handshake.NextKeepsInv | Net_chat/net_connection.h:44-265 | every enabled step of either side keeps pump, reader and handshake invariants of both directions |
| Handshake.RunKeepsInv | Net_chat/net_connection.h:44-265 | hence every polite run does |
| Delivery.EndToEndPrefix | Net_chat/net_connection.h:89-205 | in every run, failures included, each side has enqueued a prefix of the carry fold of what the other sent |
| Delivery.EndToEndDrained | Net_chat/net_connection.h:89-205 | a drained direction has delivered the whole carry fold |
| Delivery.DrainedFaithfulIff | Net_chat/net_connection.h:89-205 | in either drained direction the carry fold was delivered and the reader is between messages, iff every sent header announced its own body |
| Delivery.DeliveredAsSentIff | Net_chat/net_connection.h:89-205 | in either drained direction exactly the sent messages were delivered, iff moreover no empty one followed a non-empty one |
| Delivery.FrameBoundary | Net_chat/net_connection.h:104-143 | a reader awaiting a header has read the code and whole frames, no byte more or less |
| Delivery.FirstMessageIsAccept | Net_chat/net_server.h:54-61 | the first message a client enqueues is the one posted before its handshake, whatever else is sent |
| Delivery.HonestClientPasses | Net_chat/net_connection.h:232-256 | whenever the server's read of an honest client's answer completes, it goes on to read messages |
| Delivery.RunSent | Net_chat/net_connection.h:89-101 | popped, queued and posted messages are together exactly those Send was called with, in order |
| Delivery.WritePump | Net_chat/net_connection.h:145-193 | at most one frame write outstanding, one iff the queue is not empty before a failure, and the stream's exact content |
| Delivery.FailureIsFinal | Net_chat/net_connection.h:164-190 | after a failed frame write nothing is popped, started or written in any continuation |
| Delivery.ClosingCloses | Net_chat/net_connection.h:72-82 | disconnecting, a failed read or write, and a wrong answer to the code close the socket |
| Delivery.ClosedForGood | Net_chat/net_connection.h:72-82 | a closed socket stays closed and sends not a byte more, whatever is posted |
| Delivery.GatedByCode | Net_chat/net_connection.h:232-251 | against any peer and any read sizes, nothing is enqueued unless the code read was the expected answer; if it came whole, the peer's first eight bytes are exactly that answer |
| Delivery.HeardIsAudible | Net_chat/net_connection.h:104-251 | with whole code reads, what is enqueued from any peer is a prefix of what parses behind the right answer, and nothing without it |
| Delivery.CanBeHeardIff | Net_chat/net_connection.h:104-251 | some run enqueues something from a peer iff its bytes begin with the answer and hold a whole message behind it |
| Delivery.EarlySendIsRefused | Net_chat/net_connection.h:232-251 | a peer that sends a message before its code is never heard, unless the header spells the answer |
| Delivery.EarlySenderHeardIff | Net_chat/net_connection.h:89-251 | such a peer can be heard iff its first header spells the answer and a whole message parses from its first body on |
| Delivery.ShortReadAcceptsIff | Net_chat/net_connection.h:234-245 | a short read of an honest answer is accepted iff the bytes it missed are zero |
| Delivery.ShortReadOpensIff | Net_chat/net_connection.h:232-251 | the same for the server's step: it goes on to messages with its socket open iff the missed bytes are zero |
| Progress.NextKeepsWorking | Net_chat/net_connection.h:104-265 | every step leaves an open connection with a read in progress, or a client handing over its code |
| Progress.DrainedOrGoesOn | Net_chat/net_connection.h:89-265 | while both are open, a direction with well-formed messages is drained or some handler, transfer or read can go on |
| Progress.QuietStepReducesWork | Net_chat/net_connection.h:89-265 | every step other than a new Send, a failure or a closing leaves less work |
| Progress.QuietRunDelivers | Net_chat/net_connection.h:89-265 | left to itself an open pair stops within a bound, and where it stops the whole fold of what a well-formed side sent is delivered |
| Progress.DeliveryReachable | Net_chat/net_connection.h:89-265 | from every reachable state with both open some continuation delivers all that the well-formed sides have sent |
| TsQueues.NextKeepsInv | Net_chat/net_tsqueue.h:36-93 | every thread step keeps lock ownership, the consumer's observations and the message accounts |
| TsQueues.MutualExclusion | Net_chat/net_tsqueue.h:36-93 | no two threads are inside the same critical region |
| TsQueues.NoLostWakeup | Net_chat/net_tsqueue.h:36-93 | an un-notified sleeper with a non-empty deque implies a producer between emplace and notify holding muxQueue |
| TsQueues.QueueIsLinear | Net_chat/net_server.h:133-143 | handled, in-hand and queued messages are the pushed ones in order; no pop of an empty deque; at most nMax per Update |
| QueueProgress.ReturnsOnlyWhenDone | Net_chat/net_server.h:137-142 | Update returns only with nMax messages handled or the deque found empty |
| QueueProgress.WaitEndsWithMessage | Net_chat/net_tsqueue.h:86-93 | wait returns only when something is in the deque, spurious wake-ups or not |
| QueueProgress.UpdateHandles | Net_chat/net_server.h:133-143 | one call handles, in order, the first of the messages queued before and pushed meanwhile: nMax of them, or all |
| QueueProgress.WaitingUpdateHandles | Net_chat/net_server.h:133-143 | a waiting call does not return empty-handed |
| QueueProgress.PollingUpdate | Net_chat/net_server.h:133-143 | over idle producers a polling call returns, having handled exactly the first nMax queued messages or all |
| TsQueues.StuckIff | Net_chat/net_tsqueue.h:36-93 | a reachable state is stuck iff it is asleep on an empty queue with idle producers or the crossed-lock deadlock |
| TsQueues.DeadlockPossibleIff | Net_chat/net_tsqueue.h:36-93 | some run of n producers deadlocks iff n is positive and Update may wait |
| TsQueues.DeadlockIsFinal | Net_chat/net_tsqueue.h:36-93 | from the deadlock no continuation handles or queues anything |
| TsQueues.PollingNeverStuck | Net_chat/net_server.h:133-143 | with Updates that do not wait, the default, no reachable state is stuck |
| QueueProgress.DoomIsFinal | Net_chat/net_tsqueue.h:36-93 | once a producer in push_back and the consumer in wait have begun to cross, nothing is ever handled again, new calls or not |
| QueueProgress.FinishableIff | Net_chat/net_tsqueue.h:36-93 | a reachable state has a continuation in which every push_back returns and all is handled, iff no crossing has begun |
| Server.ChatServer.OnAccept | Net_chat/net_server.h:49-62 | greeting, roster, open set and id counter after an accept |
| Server.ChatServer.ConnectClients | Net_chat/net_server.h:160-169 | two entries are added, and success reported, exactly if both ids are free and different |
| Server.ChatServer.DisconnectClients | Net_chat/net_server.h:171-175 | where both finds hit, exactly the two entries go |
| Server.ChatServer.GetClientList | Net_chat/net_server.h:111-131 | returns the live ids in roster order and leaves the roster equal to its live members, reporting the others |
| Server.ChatServer.MessageAllClient | Net_chat/net_server.h:88-109 | the same compaction, with one message to each live member but the ignored one |
| Server.ChatServer.EraseInvalid | Net_chat/net_server.h:106-108 | erasing the reset members leaves the live ones in order |
| Server.ChatServer.OnClientListRequest | ChatServer/Server.cpp:42-53 | the sender gets one message whose body is the pushed live ids |
| Server.ChatServer.OnRequest | ChatServer/Server.cpp:55-90 | the search loop does what the first member with the id calls for |
| Server.ChatServer.OnText | ChatServer/Server.cpp:93-114 | the loop that goes on after dissolving forwards, dissolves or does nothing as specified |
| Server.ChatServer.OnAnswer | ChatServer/Server.cpp:116-128 | forwarded to the first member with the partner's id, or thrown for an unpaired sender |
| Server.ChatServer.OnClose | ChatServer/Server.cpp:130-145 | the partner is told and both entries go, or thrown for an unpaired sender |
| Server.ChatServer.OnMessage | ChatServer/Server.cpp:18-148 | every message type has the specified effect on map, roster and outboxes |
| Matchings.ConversationsDisjoint | Net_chat/net_server.h:160-175 | the entries form pairs of two different clients that share no client |
| Matchings.ConversationsConnect | Net_chat/net_server.h:160-169 | a successful connect adds exactly one new pair |
| Matchings.ConversationsDisconnect | Net_chat/net_server.h:171-175 | a disconnect removes exactly the one pair |
| Matchings.TwoEntriesEach | Net_chat/net_server.h:160-175 | the map has exactly twice as many entries as there are pairs |
| ServerRuns.BehaviorInv | ChatServer/Server.cpp:18-148 | in every state of every run the map is a matching of accepted ids and the roster is in order without nulls, and nobody reported as gone is in it |
| ServerRuns.FirstHitIff | ChatServer/Server.cpp:57-66 | a search by id stops at the member with this id that was accepted first |
| ServerRuns.OutcomeIff | ChatServer/Server.cpp:55-145 | in every reachable state exactly which messages throw and which are undefined, repeated ids included |
| ServerRuns.OutcomeWhileFresh | ChatServer/Server.cpp:55-145 | until ids repeat only a request shorter than an id is undefined; both finds of DisconnectClients hit |
| ServerRuns.UnpairedThrows | ChatServer/Server.cpp:93-135 | a run of two events in which the first client's message throws |
| ServerRuns.ShortRequestUndefined | ChatServer/Server.cpp:55-58 | a run of two events in which the first client's request is undefined |
| ServerRuns.RepeatedIdUndefined | ChatServer/Server.cpp:93-114 | a run that accepts 2^32 + 1 connections and ends in the undefined double dissolving |
| ServerRuns.PairedStepIff | ChatServer/Server.cpp:55-145 | told from its messages alone, a step makes, keeps or ends a conversation |
| ServerRuns.PairedHistory | ChatServer/Server.cpp:55-145 | two clients are in conversation iff some past request linked them and nothing since dissolved it |
| ServerRuns.NonInterference | ChatServer/Server.cpp:55-145 | while a and b are paired and silent, no run of events ends it or sends them a conversational message |
| ServerRuns.OnlyPartnersReach | ChatServer/Server.cpp:55-145 | a conversational message to someone else comes from the partner or from the one who just linked |
| ServerRuns.RequestOutcome | ChatServer/Server.cpp:55-90 | one message per request: to the target iff the pair was added, else code 1 or 0 to the requester |
| ServerRuns.TextOutcome | ChatServer/Server.cpp:93-114 | unchanged to the connected first bearer of the partner's id, else the conversation ends and only the sender is told, undefined if the id is shared |
| ServerRuns.AnswerAndCloseOutcome | ChatServer/Server.cpp:116-145 | an answer goes unchanged to the first bearer of the partner's id; a close removes exactly the one conversation |
| ServerRuns.SweepExact | Net_chat/net_server.h:88-131 | exactly the connected members stay, in order; each other is reported once ever; listed ids strictly increase before wrap |
| ServerRuns.BroadcastExact | Net_chat/net_server.h:88-105 | each connected member but the ignored one gets the message once, in roster order |
| ServerSteps.RequestStep | ChatServer/Server.cpp:55-90 | a request adds exactly its conversation and tells the first bearer alone iff somebody else has the id and neither talks to anyone; else nothing changes and the requester alone gets code 1 or 0 |
| ServerSteps.RequestLinksIff | ChatServer/Server.cpp:55-90 | over runs: a request links iff a member has the id, it is another, and no undissolved earlier link involves either |
| ServerSteps.PingStep | ChatServer/Server.cpp:27-31 | a ping comes back unchanged and nothing else happens |
| ServerSteps.HelloStep | ChatServer/Server.cpp:33-40 | one message with the sender's id to each connected member but the sender, in order, and the roster is swept |
| ServerSteps.ListStep | ChatServer/Server.cpp:42-53 | the sender alone gets the connected members' ids, in order, and the roster is swept |
| ServerSteps.TextStep | ChatServer/Server.cpp:93-114 | what text of a paired sender does, as a step of the server |
| ServerSteps.AnswerStep | ChatServer/Server.cpp:116-128 | an answer of a paired sender goes unchanged to the first bearer of the partner's id and nothing else happens |
| ServerSteps.CloseStep | ChatServer/Server.cpp:130-145 | a close ends exactly this conversation and tells the first bearer of the partner's id |
| ServerSteps.UnpairedStep | ChatServer/Server.cpp:93-135 | a message that needs a partner its sender has not throws and changes nothing |
| ServerSteps.OtherStep | ChatServer/Server.cpp:18-148 | messages of any other type change nothing |
| ServerSteps.OpenHistory | Net_chat/net_server.h:49-62 | the open connections are exactly those accepted whose socket has not closed since |
| ServerSteps.NobodyLost | Net_chat/net_server.h:88-131 | every accepted connection is a member or has been reported as gone, and no other is |
| ServerRuns.SentIsFine | ChatServer/Server.cpp:18-148 | everything the server ever sends is well-formed, or a copy of a received message, or a list of at least 2^30 ids |
| ServerRuns.SentWellFormed | ChatServer/Server.cpp:18-148 | below 2^30 connections and with well-formed messages to forward, all it sends is well-formed |
| ServerRuns.IdsUniqueIff | Net_chat/net_server.h:58-60 | ids are pairwise different iff at most 2^32 connections were accepted |
| ServerRuns.IdsAboveCodesIff | Net_chat/net_server.h:183 | no client bears one of the answer codes 0 and 1 iff the counter has not wrapped past 2^32 |
| Client.ChatClient.OnClientList | ChatClient/Client.cpp:103-114 | the countdown loop shows all ids of the body and leaves fewer than four bytes |
| Client.ChatClient.Execute | ChatClient/Client.cpp:116-181 | the effect of request, answer and close messages on the two ids a client keeps |
| Client.ListAgreement | ChatServer/Server.cpp:45-52 | for any list the client pairs position i with the i-th id pushed and uses up the body |
| Client.ClientListShown | ChatClient/Client.cpp:103-114 | what a client shows for the server's answer is exactly the connected members' ids, from last to first |
| Client.ListAnswerShown | ChatServer/Server.cpp:42-53 | the server's step in answer to a list request, as shown: exactly the connected members' ids |
| Client.RequestDecoded | ChatClient/Client.cpp:116-144 | decoding the one answer to a request tells which of the three outcomes happened, before ids wrap |
| Client.DecodesSenderIff | ChatClient/Client.cpp:120-143 | a requester is decoded as such iff its id is above the two codes |
| Client.ChatClient.ConnectTo | ChatClient/Client.cpp:206-210 | sends the id and makes it the pending one |
| Client.ChatClient.Answer | ChatClient/Client.cpp:243-273 | answers a pending request, which stays pending; accepting connects |
| Client.ChatClient.Close | ChatClient/Client.cpp:275-283 | sends the closing message and forgets both ids |
| Client.RequestAnswered | ChatClient/Client.cpp:154-273 | an undisturbed request through the server's steps: on a yes both clients and the server agree, on a no the server alone keeps the pair; the full state of both clients |
| Client.RequestTurnedDown | ChatClient/Client.cpp:120-136 | a request the server cannot meet leaves the requester with nothing pending and the partner it had |
| Client.CanAnswerIff | ChatClient/Client.cpp:243-273 | Accept and Decline send something iff the requester's id is at least 10000 |
| Client.CloseEndsForBoth | ChatClient/Client.cpp:176-180 | after a typed close both clients have no partner and nothing pending, and the server has dropped the pair |
| Client.GonePartnerIsTold | ChatClient/Client.cpp:176-180 | text for a partner that is gone leaves the sender without partner and pending request |
| Client.OthersKeepIds | ChatClient/Client.cpp:78-189 | no other message type touches the two ids |
| Client.DeclinedStaysBusy | ChatServer/Server.cpp:65-84 | while a pair is kept, requests for either client are turned down as busy |
| Acceptance.AcceptedClientLearnsItsId | ChatServer/Server.cpp:3-11 | the first message a new client enqueues carries the id the server has entered for it |
| Relay.HopKeeps | Net_chat/net_connection.h:89-205 | over one connection a non-empty message of a well-formed stream is enqueued as it was sent, in its place |
| Relay.TextArrives | ChatServer/Server.cpp:93-114 | text typed for a partner is enqueued by it unchanged after both hops, and pops as the line typed |
| Relay.TextIsDelivered | ChatServer/Server.cpp:93-114 | once forwarded it is delivered wherever the open second connection, left to itself, stops |
| Commands.StoulReads | ChatClient/Utilities.h:62 | a number is read past leading white space and trailing text iff it fits unsigned long |
| Commands.ConnectToIff | ChatClient/Utilities.h:52-69 | exactly which lines ask for a connection and to whom; one without a space never does |
| Commands.SimpleIff | ChatClient/Utilities.h:39-57 | each simple word, and nothing else, makes its command, whatever follows it |
| Commands.BlankIff | ChatClient/Utilities.h:54-69 | exactly which lines are blank |
| Commands.NeverCloses | ChatClient/Utilities.h:39-69 | no typed line is the closing command |
| Commands.StoulSigned | ChatClient/Utilities.h:62 | signs: a plus changes nothing, a minus negates modulo the range of unsigned long |
| Commands.StoulNeedsDigit | ChatClient/Utilities.h:62 | without a digit after white space and a sign there is no number |
| Commands.CommandRoundTrip | ChatClient/Utilities.h:37-70 | the typed command for any 32-bit id is read back as that id |
| StreamBufs.SmearedIntactIff | Asio_lib/asio/basic_streambuf.hpp:321-340 | a failed reserve leaves every content of a length intact iff the copy did not overlap it |
| StreamBufs.StreamBuf.MoveUnread | Asio_lib/asio/basic_streambuf.hpp:321-329 | the unread bytes are at the start; what the unmoved get area then shows, and the output sequence, unchanged |
| StreamBufs.StreamBuf.constructor | Asio_lib/asio/basic_streambuf.hpp:131-141 | a new buffer is empty and keeps its offsets inside vector and limit |
| StreamBufs.StreamBuf.Reserve | Asio_lib/asio/basic_streambuf.hpp:308-346 | succeeds iff unread bytes plus n fit the limit, keeping the content; what a failure leaves |
| StreamBufs.StreamBuf.Prepare | Asio_lib/asio/basic_streambuf.hpp:214-219 | throws iff size plus n exceeds the maximum, else n bytes of output follow unchanged content |
| StreamBufs.StreamBuf.Commit | Asio_lib/asio/basic_streambuf.hpp:233-238 | the prepared bytes, as many as exist, become readable behind the others |
| StreamBufs.StreamBuf.Consume | Asio_lib/asio/basic_streambuf.hpp:247-254 | drops the n oldest bytes, or all |
| StreamBufs.StreamBuf.Underflow | Asio_lib/asio/basic_streambuf.hpp:263-274 | shows the oldest unread byte, end of file iff there is none |
| StreamBufs.StreamBuf.Overflow | Asio_lib/asio/basic_streambuf.hpp:283-306 | appends the byte iff the buffer is not full, and changes nothing on failure |
| StreamBufs.StreamBuf.ReadSizeHelper | Asio_lib/asio/basic_streambuf.hpp:353-359 | never proposes more than fits or is asked for, and less only if that is at least 512 and the spare capacity |
| StreamBufs.StreamBuf.PrepareForRead | Asio_lib/asio/basic_streambuf.hpp:353-359 | preparing the proposed size never throws |
| StreamBufs.Execute | Asio_lib/asio/basic_streambuf.hpp:214-346 | any sequence of puts, gets, peeks, prepares, writes to the output, commits and consumes, failures included, is a run of a bounded queue with an output area |
| StreamBufs.QueueConserves | Asio_lib/asio/basic_streambuf.hpp:214-346 | on that queue, as long as no prepare overruns the limit, what was there and what entered is what left and what remains, in order |
| StreamBufs.PreparedBytesAppended | Asio_lib/asio/basic_streambuf.hpp:200-238 | a fitting prepare, a write to its buffer, any reads and a commit append exactly the written bytes |
| SocketStreamBufs.SocketStreamBuf.constructor | Asio_lib/asio/basic_socket_streambuf.hpp:566-576 | starts with an empty put area of 512 bytes |
| SocketStreamBufs.SocketStreamBuf.SendAll | Asio_lib/asio/basic_socket_streambuf.hpp:490-523 | the socket receives exactly the prefix the schedule accepts, success iff that is everything |
| SocketStreamBufs.AcceptedIsOffered | Asio_lib/asio/basic_socket_streambuf.hpp:490-523 | of n bytes the socket gets the smaller of n and the sum taken before the loop stops, for every schedule |
| SocketStreamBufs.FlushSends | Asio_lib/asio/basic_socket_streambuf.hpp:490-545 | a sync and a put into a full area succeed iff these rounds take all pending bytes; the exact outcome either way |
| SocketStreamBufs.PutSends | Asio_lib/asio/basic_socket_streambuf.hpp:468-540 | a put with room sends nothing; an unbuffered one sends its byte at once or fails with nothing sent |
| SocketStreamBufs.BuffersFirst | Asio_lib/asio/basic_socket_streambuf.hpp:566-576 | puts stay in the area until it is full, whatever the socket would do |
| SocketStreamBufs.SetBufUnbuffers | Asio_lib/asio/basic_socket_streambuf.hpp:547-558 | setbuf(0, 0) on an empty area makes puts unbuffered; anything else changes nothing |
| SocketStreamBufs.SocketStreamBuf.Overflow | Asio_lib/asio/basic_socket_streambuf.hpp:468-540 | flushes and stores the byte, or sends it unbuffered; a failure keeps the put area |
| SocketStreamBufs.SocketStreamBuf.SyncAll | Asio_lib/asio/basic_socket_streambuf.hpp:542-545 | flushes without a new byte |
| SocketStreamBufs.SocketStreamBuf.SetBuffer | Asio_lib/asio/basic_socket_streambuf.hpp:547-558 | drops the put buffer iff asked with (0, 0) on an empty put area, and loses nothing |
| SocketStreamBufs.NothingLost | Asio_lib/asio/basic_socket_streambuf.hpp:468-576 | for any schedule without failure, accepted bytes followed by pending ones are the bytes written, in order |
| SocketStreamBufs.FailureRepeatsIff | Asio_lib/asio/basic_socket_streambuf.hpp:514-522 | after the first failing overflow the same holds iff nothing was accepted in that call |

## Left out

- Sockets, resolver, io_context, threads and console output: replaced by nondeterministic steps.
- Client user interface: line reading, key polling and the client's condition variable; agreement between the clients' partner ids and the server's map is claimed for undisturbed requests only, since aborts and messages that cross break it.
- A client that calls Send before its code is handed to the socket: allowed by the code, excluded from joined runs by `Links.Polite`; what the server makes of it is `EarlySendIsRefused`.
- Progress of a direction in which a header announced bytes that were never written: its reader waits for them.
- Framing after a short code read that was accepted: the missed bytes are then read as a header; the joined-connection results assume whole code reads.
- The race between the accept handler and the message loop on the roster: steps are serialised.
- Program end after an uncaught exception: the model goes on with the unchanged server.
- `server_interface::MessageClient`, `OnClientValidated`, destructors and the printing operators: unused by the chat server or without effect on the modelled state.
- `tsqueue` operations other than push_back, pop_front, empty and wait: the modelled programs do not call them concurrently.
- TsQueues.StuckIff: spurious wake-ups and new calls of push_back are allowed in runs but do not count as a thread going on by itself.
- ServerPing and ServerMessage in the client: they print and change nothing. The Ping, Clients, HelloAll and Help commands: they send a fixed message or print.
- StreamBufs.Execute: the bytes of an output sequence that prepare had to make room for are left open until they are written.
- In basic_streambuf: putback, seeking, allocators and the casts to int; the maximum size is taken to be below 2^31.
- In basic_socket_streambuf: reading, moving, connecting and wall-clock expiry; expiry is one of the ways a send round can fail.
- The rest of the Asio headers: thin wrappers over services that are not part of this model.
