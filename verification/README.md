# Verified model of the NodeJS helper

This project models two halves of one protocol and proves what they promise each
other: the Go server that fans messages out to chat visitors and operators, and the
SocketCluster client that the pages of the chat load.

- **One server process** (`Node`, `NodeRuns`, `SocketRuns`, `Answers`, `Replies`): sockets, hub
  and Redis bridge as one value with a step for each handler, each queued packet and each
  hub change with its hook; `Hooks` looks at the two apart. `Server` holds the same as
  objects with fields; each method is proved to take all objects together where the step
  function says.
- **Several processes and Redis** (`Cluster`, `Delivery`): exactly-once delivery in the
  order of the publisher, with connections that break and come back. `Contents` and
  `ClusterContents` say what each packet and each message carries.
- **Who may do what** (`Auth`, `Admission`, `Binding`, `Presence`): login hashes, signed
  tokens, subscriptions and the presence events that follow, over whole runs; `Binding`
  tells which chats a hash opens.
- **Time** (`KeepAlive`): ticks, messages and read deadlines.
- **The text on Redis** (`RedisWire`) and **the frames on the WebSocket** (`Frames`,
  `WebSocket`, `WsClient`): two independent codecs that read each other's bytes.
- **The client** (`Client`, `ClientRuns`, `ClientChannels`, `ClientLoss`, `ClientEmits`,
  `ClientObject`): channels, calls, timers, the buffer of events, closes and reconnects.
- **Both ends of a connection** (`Agreement`, `Session`, `SessionContents`): the client
  and the server's socket joined by two FIFO pipes.
- **The client's data structures** (`LinkedList`, `Utf8`, `Base64`, `Decycle`,
  `DecycleText`). The buffer of `Client` is a sequence; `LinkedList` proves that the
  linked list behaves as one.

`dafny verify dfyconfig.toml` checks everything. Histories (what was offered to a
socket, what was written, announced, sent, called) are kept beside the state they are
about; the name of a publication travels with its packets and messages in the model
only.

## Where the code does less than one may expect

- A subscription sent while the WebSocket is closing, before the close event arrives, is
  lost: its own callback fails it, and the call id stored afterwards blocks the channel
  on the next connection (`ClientLoss.LostUntilClose`), until that closes or the page
  unsubscribes (`ClientLoss.StuckUntil`). What is wanted survives exactly when that does
  not happen (`ClientChannels.WantedExactly`).
- `utf8ToBytes` drops a lead surrogate when the string ends in two of them, instead of
  replacing both (`Utf8.ReplacesEverySurrogateIff`).
- A node drops its own messages exactly if it has an id that does not begin with `o:` or
  `s:`; sanitizing lets such ids through (`RedisWire.EchoExactly`,
  `RedisWire.ConfiguredEcho`).
- Without strict binding the hash of one chat opens every other (`Binding.BoundExactly`).
- A visitor in its chat who is let into a channel that is no chat is announced on the
  site, and nothing takes that back (`Presence.ChatPresence`, `Presence.SiteEventStands`).
- Hub and bridge agree while a hub change and its hook are one step; the hooks of several
  sockets can overtake each other (`Hooks.OutOfOrder`, `Hooks.AgreeExactly`).
- The time a token expires is looked at when it is presented, not when it is used to
  subscribe (`Binding.OutlivesToken`), and a channel is held until it is given up
  (`Admission.HeldUntil`).
- Local and remote sockets get data of the same meaning only if it is an object, an array
  or a string (`RedisWire.SameMeaningIff`); published without data it is `null` here and
  the empty string elsewhere (`RedisWire.NoData`).
- An interval and an answer time may be such that clients who answer every ping are
  disconnected (`KeepAlive.AnsweringStaysExactly`); with an interval longer than the
  timeout none gets a ping (`KeepAlive.NeverPinged`).
- The load test's reader panics on a length of 2^63 or more, where the server reports a
  message that is too big (`WsClient.PanicsExactly`).

## Model

| member | source | states |
|---|---|---|
| Delivery.AtMostOnceInOrder | nodejshelper/serversc/go-server/main.go:31-50 | In every run of the cluster - any interleaving, lost connections, messages from outside - the publications written to one socket are all different, and those of one publishing socket come in the order in which it published them |
| Delivery.ExactlyOnce | nodejshelper/serversc/go-server/hub.go:84-117 | A publication that Redis carries is offered exactly once, in order, to every socket that holds its channel and stays open until the inbox of its node is drained: at once on the publishing node, elsewhere when the subscription is in place on a connection that does not break meanwhile |
| Delivery.OutsideReaches | nodejshelper/serversc/go-server/redis.go:446-464 | What PHP publishes without an id reaches, or waits in the inbox for, every such socket of every node |
| Delivery.PublishedReaches | nodejshelper/serversc/go-server/main.go:45-50 | At the moment it is made a publication has reached the open subscribers of its own node and lies in the inbox of every other node that Redis has subscribed |
| Delivery.RunReaches | nodejshelper/serversc/go-server/redis.go:274-300 | Over every run a publication that waits in an inbox goes on waiting or has been offered to each socket that still holds the channel |
| Delivery.StepReaches | nodejshelper/serversc/go-server/hub.go:101-110 | Whatever event or departure makes a publication, each open socket that holds its channel is offered it in the same step, with its channel and its data |
| ClusterContents.PacketsTell | nodejshelper/serversc/go-server/redis.go:394-444 | After every run of the cluster each publication on each socket of each node carries the channel and data of the message it is named after: the data as published on its own node, as delivered on any other, and what came from outside as it was published there |
| ClusterContents.EventTells | nodejshelper/serversc/go-server/redis.go:415-444 | Every single event of the cluster keeps that |
| Contents.StepAdds | nodejshelper/serversc/go-server/hub.go:84-138 | Whatever a step of a node offers to whomever: a publication among it is that of the step, with its channel and data |
| Contents.PublishOffers | nodejshelper/serversc/go-server/hub.go:84-138 | A publication is offered once to every open subscriber, with the data itself or null if there was none, and to nobody else; what is no JSON to nobody |
| Contents.PublishShows | nodejshelper/serversc/go-server/socket.go:508-536 | What a client publishes is the last packet offered to every subscriber left open, the publisher among them |
| Contents.PublishSends | nodejshelper/serversc/go-server/socket.go:508-536 | A publication of a client that the configuration lets through is the one message sent to Redis, on its channel, and every other node makes its data of it; any other sends nothing |
| Delivery.ReadSendsNothing | nodejshelper/serversc/go-server/main.go:31-37 | Reading a message from Redis sends nothing to Redis, on no node, and adds to no inbox |
| Delivery.SentOnce | nodejshelper/serversc/go-server/redis.go:394-407 | After every run the messages a node has sent are its own publications, number for number, each once, under its own id, and every other node makes of each the data it was sent for |
| Cluster.RunKeeps | nodejshelper/serversc/go-server/redis.go:394-444 | The invariant of the cluster over every run: each inbox in publisher order and newer than what sockets got from other nodes, each message authentic, Redis converging to the channels the node has on record |
| Cluster.EventKeeps | nodejshelper/serversc/go-server/redis.go:353-391 | Each single step of the cluster - node step, publication from outside, command carried out, message read, connection lost or restored - keeps that invariant |
| Cluster.CommandsFollow | nodejshelper/serversc/go-server/redis.go:353-391 | The commands on their way take the set subscribed in Redis to the set the bridge has on record, also when a step appends more of them |
| Cluster.OwnDropped | nodejshelper/serversc/go-server/redis.go:415-422 | Every own message that comes back to a node decodes to nothing |
| NodeRuns.BooksAndFlows | nodejshelper/serversc/go-server/hub.go:39-75 | After every run of one process a socket holds a channel if and only if the hub has it there, the hub has no empty set, the bridge has exactly the channels of the hub and has told Redis so, nobody is over the limit, who is gone is nowhere; and on every open socket the packets written followed by those queued are exactly those offered, within the size of the queue |
| NodeRuns.StepKeeps | nodejshelper/serversc/go-server/socket.go:173-229 | Each step keeps the books, changes sockets only by packets in order with at most one publication among them, and sends that publication, and no other, to Redis |
| NodeRuns.EventHandled | nodejshelper/serversc/go-server/socket.go:200-229 | Whatever the client sends, the books agree afterwards and at most one publication is made |
| NodeRuns.LeaveHandled | nodejshelper/serversc/go-server/socket.go:551-580 | Cleanup takes the socket out of every channel set and out of the registry, in whatever order the channels are walked, and publishes one event at most |
| NodeRuns.ClosedIsFinal | nodejshelper/serversc/go-server/socket.go:713-726 | From the moment a socket is closed nothing is accepted and nothing is written, in every run |
| NodeRuns.AddKeeps | nodejshelper/serversc/go-server/hub.go:39-54 | Hub.Add with its hook changes one channel by one socket and keeps bridge, hub and Redis in step |
| NodeRuns.RemoveKeeps | nodejshelper/serversc/go-server/hub.go:58-75 | Hub.Remove with its hook takes one socket off one channel, leaves no empty set and keeps bridge, hub and Redis in step |
| NodeRuns.RemoveAllKeeps | nodejshelper/serversc/go-server/socket.go:561-563 | Removing a list of channels takes the socket off exactly these and nobody else off any |
| Hooks.AgreeExactly | nodejshelper/serversc/go-server/hub.go:39-75 | With hub changes and hooks as steps of their own, in any interleaving hub and bridge agree exactly if for each channel the hook that ran last is of the kind of the hook that fell due last |
| Hooks.OutOfOrder | nodejshelper/serversc/go-server/hub.go:48-52 | A run where it is not: the last unsubscribe runs behind the next first subscribe, and a channel has a subscriber and no Redis subscription |
| Hooks.AtOnce | nodejshelper/serversc/go-server/hub.go:69-73 | Run at once, change and hook are the step of the whole process |
| NodeRuns.PublishLocalFeeds | nodejshelper/serversc/go-server/hub.go:84-117 | A local publication changes nothing but packets, and gives each socket that publication or nothing |
| NodeRuns.EnqueueFeeds | nodejshelper/serversc/go-server/socket.go:713-726 | A packet is appended in order or closes the socket; what was written and queued before stays as it was |
| SocketRuns.OwnStep | nodejshelper/serversc/go-server/socket.go:92-133 | Whatever happens on the server, each socket moves as its own events say: other sockets can give it packets only |
| Answers.StepSays | nodejshelper/serversc/go-server/socket.go:750-766 | A step answers the call it handles, once and truly, and answers nobody else |
| Server.Socket.EnqueueText | nodejshelper/serversc/go-server/socket.go:713-726 | The object does what the step function of its state says, overflow included |
| Server.Socket.OnHandshake | nodejshelper/serversc/go-server/socket.go:233-269 | The same, for the handshake with and without a token |
| Server.Socket.OnLogin | nodejshelper/serversc/go-server/socket.go:272-355 | The same, for a login: failure, answer, token, signed token with its own call id |
| Server.Socket.OnAuthenticate | nodejshelper/serversc/go-server/socket.go:365-390 | The same, for #authenticate |
| Server.Socket.OnEvent | nodejshelper/serversc/go-server/socket.go:200-229 | The same, for every event that concerns the socket alone |
| Server.Socket.WriteNext | nodejshelper/serversc/go-server/socket.go:158-171 | One packet leaves the queue and is written, or is lost and closes the socket |
| Server.Hub.Add | nodejshelper/serversc/go-server/hub.go:39-54 | The mutated map of sets and the hook do what the step function says; the result tells the first subscriber |
| Server.Hub.Remove | nodejshelper/serversc/go-server/hub.go:58-75 | The same for Remove; the result tells the last subscriber |
| Server.Hub.Fan | nodejshelper/serversc/go-server/hub.go:84-138 | The loop over a snapshot offers a packet with the channel and the data - null without any - to each target exactly once, and nothing that is no JSON |
| Server.Bridge.OnFirstSubscribe | nodejshelper/serversc/go-server/redis.go:353-371 | The record and the commands to Redis follow the step function |
| Server.Bridge.OnLastUnsubscribe | nodejshelper/serversc/go-server/redis.go:374-391 | The record and the commands to Redis follow the step function |
| Server.Bridge.Send | nodejshelper/serversc/go-server/redis.go:394-407 | One message is sent, on the channel, under the next name of the node, of which every other node makes the data |
| Server.Process.OnTick | nodejshelper/serversc/go-server/socket.go:135-156 | All objects together are in the state of the step function: a ping is queued |
| Server.Process.OnPing | nodejshelper/serversc/go-server/socket.go:121-129 | All objects together are in the state of the step function: a pong is queued |
| Server.Process.WriteOne | nodejshelper/serversc/go-server/socket.go:158-171 | All objects together are in the state of the step function, for a write that succeeds and one that fails |
| Server.Process.Publish | nodejshelper/serversc/go-server/main.go:47-50 | All objects together are in the state of the step function: local sockets, then Redis |
| Server.Process.OnMessage | nodejshelper/serversc/go-server/redis.go:415-444 | A message from Redis is decoded and fanned out here, or dropped; nothing else changes |
| Server.Process.OnSubscribe | nodejshelper/serversc/go-server/socket.go:393-476 | All objects together are in the state of the step function, refusals included |
| Server.Process.OnUnsubscribe | nodejshelper/serversc/go-server/socket.go:484-504 | All objects together are in the state of the step function |
| Server.Process.OnPublish | nodejshelper/serversc/go-server/socket.go:508-536 | All objects together are in the state of the step function |
| Server.Process.OnEvent | nodejshelper/serversc/go-server/socket.go:200-229 | All objects together are in the state of the step function, for every event |
| Server.Process.OnLeave | nodejshelper/serversc/go-server/socket.go:551-580 | All objects together are in the state of the step function, for every order of the channels |
| Admission.HeldWasAdmitted | nodejshelper/serversc/go-server/socket.go:393-451 | Over every run of servers that share a key: each channel held was let in by a subscription at an earlier moment, when the socket had shaken hands and held a token that admits the channel and that a minted hash stands for |
| Admission.SoundAt | nodejshelper/serversc/go-server/socket.go:272-355 | At every moment each token, issued or held on any server, is what a hash minted by PHP stands for (ideal hash and MAC) |
| Admission.ChatWasMinted | nodejshelper/modules/lhnodejshelper/tokenvisitor.php:13-17 | With strict binding a visitor holds a chat channel only if a hash was minted for the chat id that the channel name ends in |
| Admission.HeldUntil | nodejshelper/serversc/go-server/socket.go:484-504 | A channel is held exactly until its socket unsubscribes it or leaves, whatever happens to the token it was let in under |
| Binding.BoundExactly | nodejshelper/serversc/go-server/socket.go:418-435 | In every run every chat channel held that a visitor was let in to is one PHP minted a hash for, exactly if each server that lets anybody in binds strictly; else a whole run - connect, handshake, login with the hash of one chat, subscription - ends holding the channel of another |
| Binding.StrictIsBound | nodejshelper/serversc/go-server/socket.go:418-435 | One direction for any kind of socket: what a visitor holds since a subscription under strict binding was minted |
| Binding.VisitRuns | nodejshelper/serversc/go-server/socket.go:272-355 | Such a visit is a run: a valid login sets the token, a later subscription is let in, and the channel is held on when the token is removed |
| Binding.OutlivesToken | nodejshelper/serversc/go-server/socket.go:403-435 | A token is good for a subscription after the time at which, presented, it would be refused as expired |
| Auth.ValidatesExactly | nodejshelper/serversc/go-server/auth.go:64-98 | With a collision-free hash a login is valid if and only if its hash is one handed out less than an hour before: to an operator, to a visitor where the name is no chat, or to a visitor of that very chat |
| Auth.MintedValidates | nodejshelper/serversc/go-server/auth.go:64-98 | What was minted for an operator logs in everywhere as one, for a visitor of the site where there is no chat, for a visitor of a chat in that chat only |
| Auth.ValidLoginWasMinted | nodejshelper/serversc/go-server/auth.go:64-98 | A login that validates was minted for just that role and, for a chat, that chat id, less than an hour before |
| Replies.LoginReply | nodejshelper/serversc/go-server/socket.go:272-361 | A login with a minted hash sets a token for two hours, or twelve for an operator, is answered, and is sent that token signed under the next call id; with a hash minted for something else it fails and changes nothing |
| Replies.HandshakeReply | nodejshelper/serversc/go-server/socket.go:233-269 | A handshake is answered with whether the token presented is good, else with whether it has expired or is invalid; just a good one is held |
| Replies.AuthenticateReply | nodejshelper/serversc/go-server/socket.go:365-390 | The same for #authenticate, which changes nothing without a token |
| Replies.VerdictExactly | nodejshelper/serversc/go-server/socket.go:393-451 | When a subscription is let in and what it is refused with: operators get any channel, visitors any that is no chat, and a chat only with a token for it |
| Replies.RefusedReply | nodejshelper/serversc/go-server/socket.go:393-451 | A refused subscription is answered with the reason and changes nothing |
| Replies.AcceptedReply | nodejshelper/serversc/go-server/socket.go:437-476 | An accepted one is noted, a chat is remembered in the token of a visitor, and the answer comes last |
| Auth.MintInputInjective | nodejshelper/modules/lhnodejshelper/tokenadmin.php:6-10 | Two minted inputs are equal only if role, date and chat id are: the concatenation parses one way |
| Auth.LastBehind | nodejshelper/serversc/go-server/auth.go:102-108 | What stands behind the last underscore is the last part |
| Auth.EndsInLastPart | nodejshelper/serversc/go-server/auth.go:102-108 | A name ends in its last part, behind an underscore if it has one |
| Presence.SitePresence | nodejshelper/serversc/go-server/socket.go:462-465 | With its token unchanged a visitor of the site announces itself once for each request let in and once that it is gone, always in the same channel under the same name |
| Presence.ChatPresence | nodejshelper/serversc/go-server/socket.go:453-465 | A visitor let into its chat ends with exactly one event that it is gone, in that chat; before it there are only events that it is online, at least one in the chat; it is announced on the site exactly if visitors are tracked and it was let into a channel that is no chat, and no event takes that back |
| Presence.SiteEventStands | nodejshelper/serversc/go-server/socket.go:551-580 | A whole run in which that happens, from the connection to the cleanup |
| Presence.RefusedIsSilent | nodejshelper/serversc/go-server/socket.go:403-451 | A refused subscription publishes nothing, announces nothing and changes no subscription |
| Presence.PresenceArrives | nodejshelper/serversc/go-server/socket.go:538-547 | Every other node delivers a presence event as the very text that was published |
| Presence.SiteChannelsDiffer | nodejshelper/serversc/go-server/socket.go:464-464 | Two sites share a presence channel only if they are the same instance, and it is never a chat channel |
| Presence.ItoaReads | nodejshelper/serversc/go-server/socket.go:464-464 | An instance id is read back from its decimal text, for all 64-bit numbers |
| Presence.StepAnnounces | nodejshelper/serversc/go-server/socket.go:453-466 | Every announcement of every step: only of the visitor that subscribes or leaves, in its chat or else, if visitors are tracked, on its site; never of an operator |
| Presence.AnnouncedIsSent | nodejshelper/serversc/go-server/socket.go:538-547 | What is announced in a step is the one message sent in that step, on its channel and with its text |
| Presence.PresenceTexts | nodejshelper/serversc/go-server/socket.go:538-547 | The texts of the four kinds of presence events |
| KeepAlive.AnsweringStaysExactly | nodejshelper/serversc/go-server/socket.go:108-156 | Every client that answers each ping within d stays connected exactly if the first multiple of the interval behind d is at most the timeout, and interval plus d are less than the timeout plus five seconds |
| KeepAlive.NeverPongTimeoutExactly | nodejshelper/serversc/go-server/socket.go:135-156 | No such client is closed with 4000 exactly under the first of these conditions |
| KeepAlive.FitsInTimeout | nodejshelper/serversc/go-server/config.go:136-137 | Interval plus d at most the timeout is enough |
| KeepAlive.SlackLeast | nodejshelper/serversc/go-server/socket.go:150-150 | The first multiple of the interval behind d is the least one |
| KeepAlive.SilentIsDropped | nodejshelper/serversc/go-server/socket.go:108-117 | A client silent since t is disconnected no later than t plus the timeout plus the smaller of the interval and five seconds |
| KeepAlive.NeverPinged | nodejshelper/serversc/go-server/socket.go:108-156 | With an interval longer than the timeout every client that waits for its first ping is disconnected without one: with 4000 at the first tick, or by the read deadline if that comes before it |
| KeepAlive.Pulse.OnTick | nodejshelper/serversc/go-server/socket.go:150-154 | One round of the ping loop: closed, or pinged once |
| KeepAlive.Pulse.OnMessage | nodejshelper/serversc/go-server/socket.go:108-119 | A message moves the last activity and the deadline |
| RedisWire.SplitEncoded | nodejshelper/serversc/go-server/redis.go:446-493 | Splitting an encoded message gives back id and payload exactly for ids without a slash that do not look like a tag |
| RedisWire.OwnEchoDropped | nodejshelper/serversc/go-server/redis.go:418-422 | Under a usable id the sender drops what it sent, for all data |
| RedisWire.OtherNodeDelivers | nodejshelper/serversc/go-server/redis.go:423-443 | Every other node delivers the data, for all data |
| RedisWire.SameValue | nodejshelper/serversc/go-server/redis.go:471-486 | Objects and arrays are delivered unchanged, other scalars as the string of their text |
| RedisWire.SameString | nodejshelper/serversc/go-server/redis.go:478-484 | A string is delivered as the same string |
| RedisWire.UnprefixedKept | nodejshelper/serversc/go-server/redis.go:451-454 | A message without an id keeps every slash of its body |
| RedisWire.UnprefixedText | nodejshelper/serversc/go-server/redis.go:423-443 | An unprefixed text arrives as a string, and what has no tag is dropped |
| RedisWire.NoIdEchoes | nodejshelper/serversc/go-server/redis.go:447-450 | Without an id a node delivers its own messages again |
| RedisWire.SanitizedText | nodejshelper/serversc/go-server/config.go:119-126 | Sanitizing turns slashes and spaces into dashes and changes nothing else |
| RedisWire.SanitizedReadable | nodejshelper/serversc/go-server/config.go:119-126 | Sanitizing leaves exactly the ids unreadable that look like a tag |
| RedisWire.TaggedIdEchoes | nodejshelper/serversc/go-server/redis.go:446-464 | Under an id that looks like a tag every node, the sender too, delivers the rest of the id and the payload as one text |
| RedisWire.EchoExactly | nodejshelper/serversc/go-server/redis.go:418-422 | A node drops what it sent itself exactly when it has an id that does not look like a tag |
| RedisWire.ConfiguredEcho | nodejshelper/serversc/go-server/config.go:119-126 | The same for a configured id, read off what was configured |
| RedisWire.SameMeaningIff | nodejshelper/serversc/go-server/hub.go:130-136 | Local and remote sockets get data of the same meaning exactly for valid objects and arrays and for strings; numbers, booleans and null arrive elsewhere as strings |
| RedisWire.NoData | nodejshelper/serversc/go-server/hub.go:130-136 | Published without data: null here, the empty string elsewhere |
| WebSocket.Reassembly | nodejshelper/serversc/go-server/websocket.go:181-233 | For every split of a message into frames with pings and pongs between them, within the limit, the message comes back whole with its first opcode, and each ping is answered by one pong of the same payload, in order (sections 5.4 and 5.5 of RFC 6455) |
| WebSocket.AcceptsExactlyFragments | nodejshelper/serversc/go-server/websocket.go:181-233 | A run of frames makes a message exactly if it is such a split |
| WebSocket.ClientToServer | nodejshelper/serversc/go-server/websocket.go:181-294 | Any list of messages written by the masking client is read back identically, and exactly the bytes behind them stay unread |
| WebSocket.ParseClientFrame | nodejshelper/serversc/go-server/websocket.go:235-294 | A masked frame parses back to itself and leaves exactly the bytes behind it |
| WebSocket.ClientFrameShortest | nodejshelper/serversc/go-server/loadtest/main.go:773-805 | The client writes the shortest of the length forms |
| WebSocket.HandleBounds | nodejshelper/serversc/go-server/websocket.go:181-233 | The message buffer never exceeds the limit, and every round consumes bytes |
| WebSocket.WsConn.ReadFrame | nodejshelper/serversc/go-server/websocket.go:235-294 | The reader does what the parser says on every input, errors included, unmasking in place |
| WebSocket.WsConn.ReadMessage | nodejshelper/serversc/go-server/websocket.go:181-233 | The loop computes the assembly of the bytes to come, its buffer bounded all along |
| WebSocket.WsConn.WriteFrame | nodejshelper/serversc/go-server/websocket.go:301-334 | What is written is the frame with the shortest length form, or nothing when closed |
| WebSocket.WsConn.WriteClose | nodejshelper/serversc/go-server/websocket.go:342-357 | One close frame with code and reason, whatever its length, and nothing after it |
| WebSocket.UnmaskInPlace | nodejshelper/serversc/go-server/websocket.go:287-291 | The array is masked in place: each byte has just the bits in which it differed from its mask byte |
| WsClient.ServerToClient | nodejshelper/serversc/go-server/loadtest/main.go:807-873 | Any list of messages written by the server is read back identically by the other implementation; unread stay the pongs behind the last text, and what follows |
| WsClient.PanicsExactly | nodejshelper/serversc/go-server/loadtest/main.go:807-873 | The reader of the load test panics exactly on an 8-byte length with its top bit set, once the mask of a masked frame has arrived; the server never does, to it such a frame is too big |
| WsClient.ParseServerFrame | nodejshelper/serversc/go-server/loadtest/main.go:807-873 | A server frame parses back to itself and leaves exactly the bytes behind it |
| WsClient.ServerFrameShortest | nodejshelper/serversc/go-server/websocket.go:301-334 | The server writes the shortest of the length forms |
| WsClient.Client.WriteFrameLocked | nodejshelper/serversc/go-server/loadtest/main.go:773-805 | The frame written is the masked frame, masked in place in its buffer; each of its last bytes has just the bits in which payload and mask differ |
| WsClient.Client.ReadMessage | nodejshelper/serversc/go-server/loadtest/main.go:807-873 | The loop computes what the reader function says, pings answered on the way |
| Frames.LengthFieldReads | nodejshelper/serversc/go-server/websocket.go:254-270 | Each length form reads back the length it was written for |
| Frames.MaskedExactly | nodejshelper/serversc/go-server/websocket.go:287-291 | Masking is bitwise exclusive or with the mask byte of the position, and nothing else is |
| Frames.MaskedTwice | nodejshelper/serversc/go-server/websocket.go:287-291 | Masking twice is no masking |
| Frames.Examples | nodejshelper/serversc/go-server/websocket.go:301-334 | The frames of section 5.7 of RFC 6455, byte for byte |
| Prelude.XorExactly | nodejshelper/serversc/go-server/loadtest/main.go:773-805 | A byte is the exclusive or of two others if and only if it has just the bits in which they differ |
| Session.SubscribedIsHeld | nodejshelper/design/nodejshelpertheme/js/socketcluster.js:1081-1198 | At every moment of a connection, for any interleaving of subscriptions, their ends and refusals on two FIFO pipes: a channel that the client takes for subscribed is held by the server socket, until one side has ended the connection |
| Session.QuietMeansSame | nodejshelper/serversc/go-server/socket.go:393-504 | Whenever both pipes are empty on an open connection the two sides hold exactly the same channels, and no call of a channel waits |
| SessionContents.EventCrosses | nodejshelper/design/nodejshelpertheme/js/socketcluster.js:1019-1025 | What a page emits on an open connection is, whatever is sent, read or handled meanwhile, the very event that the server handles when it comes to it, with a call id exactly if it has a callback |
| SessionContents.PublishCrosses | nodejshelper/serversc/go-server/socket.go:508-536 | A publication of the page, if the server lets it, is sent to Redis once, on its channel and with its data, and is the last packet offered to each open subscriber |
| Session.TurnKeeps | nodejshelper/design/nodejshelpertheme/js/socketcluster.js:1529-1548 | Every turn of either side keeps the agreement of each channel with what is on its way |
| Agreement.HandleKeeps | nodejshelper/serversc/go-server/socket.go:393-504 | The server handling the next message keeps the agreement for all channels |
| Agreement.ReadKeeps | nodejshelper/design/nodejshelpertheme/js/socketcluster.js:1529-1548 | The client reading the next answer keeps it: an answer that a channel waits for tells the truth, and nothing about the channel is on its way behind it |
| Agreement.SubscribeKeeps | nodejshelper/design/nodejshelpertheme/js/socketcluster.js:1124-1140 | Subscribing keeps it |
| Agreement.UnsubscribeKeeps | nodejshelper/design/nodejshelpertheme/js/socketcluster.js:1166-1198 | Unsubscribing keeps it |
| ClientRuns.CallbacksOnce | nodejshelper/design/nodejshelpertheme/js/socketcluster.js:841-1002 | Over the life of a client - timers cleared on an answer, callbacks taken away on a failure, no record of the past consulted - a callback is called at most once, until then waits in exactly one of buffer and calls with its timer running, and no call id is handed out twice |
| ClientRuns.CalledAtLast | nodejshelper/design/nodejshelpertheme/js/socketcluster.js:956-1002 | A callback not yet called has its timer running, is called when that runs out, and by the next close |
| ClientRuns.StepInv | nodejshelper/design/nodejshelpertheme/js/socketcluster.js:924-1002 | Every turn keeps the invariant behind this, for all orders of channels and calls |
| ClientEmits.EmitGoesOut | nodejshelper/design/nodejshelpertheme/js/socketcluster.js:974-1025 | On an open connection what a page emits goes out at once, behind the events that waited and in their order: each as one message with its own content, and with a call id, known to be its own, exactly if it has a callback |
| ClientEmits.BufferGoesOut | nodejshelper/design/nodejshelpertheme/js/socketcluster.js:943-954 | What was emitted without a connection goes out when the handshake is answered, behind the requests for the channels, in order and each once |
| ClientRuns.CloseKeeps | nodejshelper/design/nodejshelpertheme/js/socketcluster.js:1507-1527 | A close calls every waiting callback, empties buffer and calls, and fails a channel only if its subscription is just being sent |
| ClientRuns.CloseKeepsWanted | nodejshelper/design/nodejshelpertheme/js/socketcluster.js:823-839 | The wanted channels are the same after a close, and none of them has a call |
| ClientRuns.FlushInv | nodejshelper/design/nodejshelpertheme/js/socketcluster.js:943-954 | A flush leaves the buffer empty: its events are emitted, or aborted if the connection ends |
| ClientChannels.WantedExactly | nodejshelper/design/nodejshelpertheme/js/socketcluster.js:1124-1198 | The wanted channels change only as the page asks and the server refuses - through closes and reconnects - exactly when no subscription is sent on a WebSocket that has already begun to close |
| ClientChannels.ReconnectRequests | nodejshelper/design/nodejshelpertheme/js/socketcluster.js:1251-1282 | After a reconnect one #subscribe is sent for each wanted channel, each once, and no other |
| ClientChannels.WantedIsRequested | nodejshelper/design/nodejshelpertheme/js/socketcluster.js:1081-1122 | On an open connection each wanted channel is subscribed or has exactly one request out |
| ClientChannels.LosslessRun | nodejshelper/design/nodejshelpertheme/js/socketcluster.js:868-881 | So it is at the end of every run in which no subscription is lost |
| ClientLoss.LostUntilClose | nodejshelper/design/nodejshelpertheme/js/socketcluster.js:1109-1118 | A run from the start in which a subscription is sent on a closing WebSocket: connected again and wanted again, the channel has no request out |
| ClientLoss.StuckUntil | nodejshelper/design/nodejshelpertheme/js/socketcluster.js:1081-1198 | That lasts exactly until the connection is closed or the page unsubscribes the channel; until then it has no request out |
| ClientObject.ScClient.Close | nodejshelper/design/nodejshelpertheme/js/socketcluster.js:1507-1527 | The object does what the step function of its state says: suspend, abort the buffer, abort the calls |
| ClientObject.ScClient.SuspendSubscriptions | nodejshelper/design/nodejshelpertheme/js/socketcluster.js:823-839 | The loop over the channels does what the step function says, in any order |
| ClientObject.ScClient.AbortPending | nodejshelper/design/nodejshelpertheme/js/socketcluster.js:1487-1505 | The loop over the calls does what the step function says |
| ClientObject.ScClient.FlushBuffer | nodejshelper/design/nodejshelpertheme/js/socketcluster.js:943-954 | The loop over the buffer does what the step function says, also when the connection ends within it |
| ClientObject.ScClient.TryToSubscribe | nodejshelper/design/nodejshelpertheme/js/socketcluster.js:1081-1122 | The same, the call id stored after the event is sent |
| ClientObject.ScClient.OnUnsubscribe | nodejshelper/design/nodejshelpertheme/js/socketcluster.js:1142-1198 | The same, the pending call cancelled before the event is sent |
| ClientObject.ScClient.ProcessInOrder | nodejshelper/design/nodejshelpertheme/js/socketcluster.js:1251-1282 | The same, for every order of the pending channels |
| ClientObject.ScClient.OnResponse | nodejshelper/design/nodejshelpertheme/js/socketcluster.js:1529-1548 | The same, the call forgotten and the timer cleared before the callback is called |
| ClientObject.ScClient.OnEmit | nodejshelper/design/nodejshelpertheme/js/socketcluster.js:974-1002 | The same, its timer started, buffered and flushed if open |
| ClientObject.ScClient.OnAckTimeout | nodejshelper/design/nodejshelpertheme/js/socketcluster.js:956-972 | The same for an event whose timer runs out: out of buffer and calls, its callback taken away and called |
| LinkedList.Item.Detach | nodejshelper/design/nodejshelpertheme/js/socketcluster.js:4543-4590 | Detaching at any position removes exactly that item and leaves the list well formed, its tail null when fewer than two are left |
| LinkedList.Item.Append | nodejshelper/design/nodejshelpertheme/js/socketcluster.js:4657-4710 | An item, detached or taken out of another list, is put right behind this one, and leaves the other list without it and well formed |
| LinkedList.Item.Prepend | nodejshelper/design/nodejshelpertheme/js/socketcluster.js:4598-4650 | The same, right before this one |
| LinkedList.List.Append | nodejshelper/design/nodejshelpertheme/js/socketcluster.js:4472-4510 | Appending extends the sequence by the item, and takes it out of the list it was in |
| LinkedList.List.Prepend | nodejshelper/design/nodejshelpertheme/js/socketcluster.js:4428-4465 | Prepending puts the item first, and takes it out of the list it was in |
| LinkedList.List.ToArray | nodejshelper/design/nodejshelpertheme/js/socketcluster.js:4409-4419 | The array lists the items in order |
| LinkedList.List.Flush | nodejshelper/design/nodejshelpertheme/js/socketcluster.js:943-954 | Detaching while walking emits all data in FIFO order and leaves the list empty |
| Utf8.StringRoundTrip | nodejshelper/design/nodejshelpertheme/js/socketcluster.js:2975-3050 | Every well-formed UTF-16 string survives encoding and decoding |
| Utf8.SliceIsStable | nodejshelper/design/nodejshelpertheme/js/socketcluster.js:2975-3050 | On arbitrary bytes decoding gives well-formed UTF-16 that survives encoding and decoding again |
| Utf8.BytesRoundTripIff | nodejshelper/design/nodejshelpertheme/js/socketcluster.js:3687-3765 | Bytes survive decoding and encoding exactly when they are valid UTF-8 |
| Utf8.ReplacesEverySurrogateIff | nodejshelper/design/nodejshelpertheme/js/socketcluster.js:3687-3765 | Each lone surrogate is encoded as U+FFFD exactly unless the string ends in two leads |
| Utf8.DroppedLeadWitness | nodejshelper/design/nodejshelpertheme/js/socketcluster.js:3687-3765 | A string for which it is not: the last lead is dropped |
| Utf8.Utf8ToBytes | nodejshelper/design/nodejshelpertheme/js/socketcluster.js:3687-3765 | The loop computes the encoding within the bound of units, on every input |
| Utf8.Utf8Slice | nodejshelper/design/nodejshelpertheme/js/socketcluster.js:2975-3050 | The loop computes the decoding, on every input |
| Utf8.DecodeCodePointsArray | nodejshelper/design/nodejshelpertheme/js/socketcluster.js:3053-3068 | Chunks of code units join to the whole |
| Base64.Vectors | nodejshelper/design/nodejshelpertheme/js/socketcluster.js:1993-2076 | The test vectors of section 10 of RFC 4648, and the two symbols of the URL-safe alphabet |
| Base64.StandardRoundTrip | nodejshelper/design/nodejshelpertheme/js/socketcluster.js:1993-2076 | Decoding what was encoded gives the bytes back, for all byte arrays (section 4 of RFC 4648) |
| Base64.PaddedRoundTrip | nodejshelper/design/nodejshelpertheme/js/socketcluster.js:1993-2076 | The same for both alphabets (section 5 of RFC 4648) |
| Base64.CleanRoundTrip | nodejshelper/design/nodejshelpertheme/js/socketcluster.js:3668-3680 | The cleaned decoder inverts the unpadded form in either alphabet |
| Base64.TokenPayloadReadBack | nodejshelper/serversc/go-server/auth.go:128-134 | The browser reads from a signed token exactly the payload that the server signed |
| Base64.Base64Clean | nodejshelper/design/nodejshelpertheme/js/socketcluster.js:3668-3680 | The method computes the cleaned text |
| Base64.FromByteArray | nodejshelper/design/nodejshelpertheme/js/socketcluster.js:2046-2076 | The chunked encoder equals the unchunked one |
| Base64.EncodeChunk | nodejshelper/design/nodejshelpertheme/js/socketcluster.js:2036-2044 | A chunk is encoded block by block |
| Base64.ArrayBufferToBase64 | nodejshelper/design/nodejshelpertheme/js/socketcluster.js:5380-5399 | The other encoder gives the same text |
| Base64.ToByteArray | nodejshelper/design/nodejshelpertheme/js/socketcluster.js:2001-2030 | The loop computes the decoding, padding included |
| Decycle.ExpandsEachOnce | nodejshelper/design/nodejshelpertheme/js/socketcluster.js:4969-5045 | On any finite graph, cyclic or shared, the copy expands each reachable object exactly once, at a path of its own that leads to it, and nothing else |
| Decycle.RefsResolve | nodejshelper/design/nodejshelpertheme/js/socketcluster.js:4969-5045 | Every reference left in the copy, followed from the root, reaches the object it replaced, and in the copy its expansion |
| Decycle.CopyIsFaithful | nodejshelper/design/nodejshelpertheme/js/socketcluster.js:4969-5045 | Everything else in the copy is what the original has in the same place |
| DecycleText.PathTextReads | nodejshelper/design/nodejshelpertheme/js/socketcluster.js:5024-5044 | The text of a path, indices in decimal and keys as JSON.stringify quotes them, says which path it is |
| DecycleText.RefTextsDiffer | nodejshelper/design/nodejshelpertheme/js/socketcluster.js:5007-5020 | No two objects of a graph are referred to by the same text |
| Decycle.Decycler.Derez | nodejshelper/design/nodejshelpertheme/js/socketcluster.js:4985-5043 | The recursion that pushes to shared tables computes that copy |

## Left out

- Delivery.ExactlyOnce: speaks of publications that Redis carried; one that the publisher connection failed to send, or that was in an inbox when its connection broke, reaches local sockets only.
- Delivery.AtMostOnceInOrder: needs distinct, usable node ids; what other ids do is stated by RedisWire.EchoExactly and RedisWire.TaggedIdEchoes.
- Session.QuietMeansSame: the pages use neither batches nor waitForAuth nor kickOut, and none of them is part of this model; nor are callbacks that call back into the client.
- KeepAlive.AnsweringStaysExactly: handling takes no time, and pings and pongs of the WebSocket itself, which are no messages, do not occur in it.
- Admission.HeldWasAdmitted: SHA-1 is an ideal hash and the signature an ideal MAC; `constantTimeEqual` is equality.
- Auth.ValidatesExactly: the hash has no collisions and its text no dot; behind a second dot anything is accepted, as in the code.
- Binding.BoundExactly: the hash has no collisions and its text no dot; the sockets of these runs are named by integers.
- DecycleText.PathTextReads: keys are texts without lone surrogates, which engines quote differently.
- LinkedList.Item.Append: an item that is already in the list it is put into is not covered; the client always appends fresh ones.
- Goroutines interleaved inside a handler, inside `enqueueText`, or between a hub change and its hook: a handler is one step, as handlers of one socket run one after the other.
- JSON parsing and printing: events are datatypes, and texts of data are looked at through an abstract validity, quoting and unquoting.
- The order in which Go walks a map and JavaScript an object: it is a parameter, or left open, and the results hold for all orders.
- TCP, TLS, the HTTP upgrade, origin checks, static files and system deadlines: streams are byte sequences, and an error of the reader is its end.
- go-redis: its pools, PING probes, health flag, backoff and log suppression; a connection breaks, loses what it carried, and is restored with the channels on record.
- Configuration other than the instance id; logging; metrics and the load generator around the client codec.
- base64 `atob` of the browser, Latin-1 and UTF-16 codecs, floating-point and integer helpers, deep clone and UUIDs of the bundle.
- PHP event hooks and templates, the page scripts and the Node.js worker files.
