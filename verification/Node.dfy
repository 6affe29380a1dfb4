// One server process as a value: its sockets (socket.go), its hub (hub.go) and the
// record its Redis bridge keeps (redis.go), with one step for each handler, each
// queued packet and each hub change together with its hook. `S` identifies sockets.
module Node {
  import opened Prelude
  import opened Auth
  import RedisWire

  datatype Config = Config(
    json: RedisWire.Json, sha: Hash, instanceID: string, secretHash: string,
    trackVisitors: bool, channelLimit: int, sendBuffer: nat,
    allowClientPublish: bool, strictChannelBinding: bool, restrictClientPublish: bool)

  // The name of a publication in the history of a run: the node it was made on,
  // the socket it was made for, and its number there. What PHP publishes has no
  // node and no socket.
  datatype PubId<S> = PubId(node: string, source: Option<S>, serial: nat)

  datatype Body = Empty | Batch | Status(isAuthenticated: bool, authError: Option<string>)

  datatype Packet<S> =
    | Response(rid: int, body: Body)
    | ErrorResponse(rid: int, name: string)
    | SetAuthToken(signed: Signed, cid: nat)
    | PublishPacket(channel: string, data: string, pub: PubId<S>)
    | Ping
    | Pong

  datatype Presence = Presence(channel: string, online: bool, vid: string)

  // The last three fields are history: the packets written, the packets given to
  // enqueueText while open, and the presence events announced.
  datatype Sock<S> = Sock(
    handshaken: bool, authed: bool, token: Option<Token>, subs: set<string>, callID: nat,
    closed: bool, gone: bool, queue: seq<Packet<S>>,
    written: seq<Packet<S>>, offered: seq<Packet<S>>, announced: seq<Presence>)

  // What the bridge asks of its subscriber connection ...
  datatype Command = Subscribe(channel: string) | Unsubscribe(channel: string)

  // ... and what its publisher connection carries. `data` and `pub` tell what `raw`
  // was made of.
  datatype Message<S> = Message(channel: string, raw: string, data: string, pub: PubId<S>)

  // `commands` and `sent` are the histories of the two connections to Redis.
  datatype Node<S> = Node(
    socks: map<S, Sock<S>>, registered: set<S>,
    hub: map<string, set<S>>, subscribed: set<string>,
    commands: seq<Command>, sent: seq<Message<S>>)

  datatype HashField = NoHash | Text(hash: string) | Nested(inner: string, instance: Option<int>) | OtherKind

  datatype LoginRequest = Malformed | LoginRequest(hash: HashField, chanelName: string, instanceID: Option<int>)

  // One decoded message of a client. A malformed channel payload has channel "".
  datatype Event =
    | Handshake(cid: Option<int>, auth: Option<Signed>)
    | LoginEvent(cid: Option<int>, request: LoginRequest)
    | Authenticate(cid: Option<int>, signed: Option<Signed>)
    | RemoveAuthToken(cid: Option<int>)
    | SubscribeEvent(cid: Option<int>, channel: string, batch: bool)
    | UnsubscribeEvent(cid: Option<int>, channel: string)
    | PublishEvent(cid: Option<int>, channel: string, data: string)
    | Disconnect
    | Unknown(cid: Option<int>, name: string)

  function NewSock<S>(): Sock<S> {
    Sock(false, false, None, {}, 0, false, false, [], [], [], [])
  }

  // ---- one socket ----------------------------------------------------------

  // closeWith
  function CloseWith<S>(s: Sock<S>): Sock<S> { s.(closed := true) }

  // enqueueText: the first packet that does not fit closes the socket.
  function Enqueue<S>(cfg: Config, s: Sock<S>, p: Packet<S>): Sock<S> {
    if s.closed then s
    else if |s.queue| < cfg.sendBuffer then s.(queue := s.queue + [p], offered := s.offered + [p])
    else CloseWith(s).(offered := s.offered + [p])
  }

  function Reply<S>(cfg: Config, s: Sock<S>, cid: Option<int>, body: Body): Sock<S> {
    if cid.Some? then Enqueue(cfg, s, Response(cid.value, body)) else s
  }

  function Refuse<S>(cfg: Config, s: Sock<S>, cid: Option<int>, name: string): Sock<S> {
    if cid.Some? then Enqueue(cfg, s, ErrorResponse(cid.value, name)) else s
  }

  function SetToken<S>(s: Sock<S>, token: Option<Token>): Sock<S> {
    s.(token := token, authed := token.Some?)
  }

  function ErrorName(v: Verified): string {
    if v.Expired? then "AuthTokenExpiredError" else "AuthTokenInvalidError"
  }

  function AfterVerify<S>(s: Sock<S>, v: Verified): Sock<S> {
    SetToken(s, if v.Valid? then Some(v.token) else None)
  }

  function HandleHandshake<S>(cfg: Config, s: Sock<S>, cid: Option<int>, auth: Option<Signed>, now: int): Sock<S> {
    var v := if auth.Some? then VerifyToken(auth.value, now) else Invalid;
    var t := AfterVerify(s, v).(handshaken := true);
    Reply(cfg, t, cid, Status(t.authed, if auth.Some? && !v.Valid? then Some(ErrorName(v)) else None))
  }

  function HandleAuthenticate<S>(cfg: Config, s: Sock<S>, cid: Option<int>, signed: Option<Signed>, now: int): Sock<S> {
    if signed.None? then Reply(cfg, s, cid, Status(s.authed, None))
    else
      var v := VerifyToken(signed.value, now);
      var t := AfterVerify(s, v);
      Reply(cfg, t, cid, Status(t.authed, if v.Valid? then None else Some(ErrorName(v))))
  }

  // The hash and instance id that a login request comes to.
  function LoginHash(r: LoginRequest): (string, int)
    requires r.LoginRequest?
  {
    var instance := if r.instanceID.Some? then r.instanceID.value else 0;
    match r.hash
    case NoHash => ("", instance)
    case OtherKind => ("", instance)
    case Text(hash) => (hash, instance)
    case Nested(inner, i) => (inner, if i.Some? then i.value else 0)
  }

  function LoginToken(hash: string, chanelName: string, instanceID: int, login: Login, now: int): Token {
    Token(hash, if login.isVisitor then now + 120 * 60 else now + 12 * 60 * 60, 0,
          chanelName, instanceID, login.isChatToken, login.isVisitor, "")
  }

  // The token that a successful login sets, and its signed form.
  function LoginResult(cfg: Config, r: LoginRequest, now: int): Option<(Token, Signed)> {
    if r.Malformed? then None
    else
      var (hash, instanceID) := LoginHash(r);
      var login := ValidateLogin(cfg.sha, hash, r.chanelName, cfg.secretHash, now);
      if !login.ok then None else Some(SignToken(LoginToken(hash, r.chanelName, instanceID, login, now), now))
  }

  function HandleLogin<S>(cfg: Config, s: Sock<S>, cid: Option<int>, r: LoginRequest, now: int): Sock<S> {
    match LoginResult(cfg, r, now)
    case None => Refuse(cfg, s, cid, "LoginFailedError")
    case Some((token, signed)) =>
      var t := Reply(cfg, s, cid, Empty);
      var u := SetToken(t, Some(token)).(callID := t.callID + 1);
      Enqueue(cfg, u, SetAuthToken(signed, u.callID))
  }

  // ---- the hub and the bridge ----------------------------------------------

  function Subscribers<S>(n: Node<S>, channel: string): set<S> {
    if channel in n.hub then n.hub[channel] else {}
  }

  function Put<S>(n: Node<S>, s: S, sock: Sock<S>): Node<S> {
    n.(socks := n.socks[s := sock])
  }

  function EnsureSubscribed<S>(n: Node<S>, channel: string): Node<S> {
    if channel in n.subscribed then n
    else n.(subscribed := n.subscribed + {channel}, commands := n.commands + [Subscribe(channel)])
  }

  function EnsureUnsubscribed<S>(n: Node<S>, channel: string): Node<S> {
    if channel !in n.subscribed then n
    else n.(subscribed := n.subscribed - {channel}, commands := n.commands + [Unsubscribe(channel)])
  }

  // Hub.Add; the hook runs for the first subscriber.
  function HubAdd<S>(n: Node<S>, s: S, channel: string): Node<S> {
    var m := n.(hub := n.hub[channel := Subscribers(n, channel) + {s}]);
    if channel in n.hub then m else EnsureSubscribed(m, channel)
  }

  // Hub.Remove; the hook runs for the last subscriber.
  function HubRemove<S>(n: Node<S>, s: S, channel: string): Node<S> {
    if s !in Subscribers(n, channel) then n
    else
      var left := n.hub[channel] - {s};
      if left != {} then n.(hub := n.hub[channel := left])
      else EnsureUnsubscribed(n.(hub := n.hub - {channel}), channel)
  }

  // encodePublish: no data is null, and what is no JSON is not delivered.
  function EncodePublish<S>(cfg: Config, channel: string, data: string, pub: PubId<S>): Option<Packet<S>> {
    if data == "" || cfg.json.valid(data) then Some(PublishPacket(channel, RedisWire.Local(data), pub)) else None
  }

  // Hub.PublishLocal
  function PublishLocal<S>(cfg: Config, n: Node<S>, channel: string, data: string, pub: PubId<S>): (m: Node<S>)
    ensures m.socks.Keys == n.socks.Keys
  {
    var packet := EncodePublish(cfg, channel, data, pub);
    if packet.None? then n
    else n.(socks := map s | s in n.socks ::
              if s in Subscribers(n, channel) then Enqueue(cfg, n.socks[s], packet.value) else n.socks[s])
  }

  function MessageOf<S>(cfg: Config, source: S, channel: string, data: string, serial: nat): Message<S> {
    Message(channel, RedisWire.EncodeForRedis(cfg.json, cfg.instanceID, data), data,
            PubId(cfg.instanceID, Some(source), serial))
  }

  // Server.publish on behalf of the socket `source`: local sockets first, then Redis.
  function ServerPublish<S>(cfg: Config, n: Node<S>, source: S, channel: string, data: string): (m: Node<S>)
    ensures m.socks.Keys == n.socks.Keys
  {
    var msg := MessageOf(cfg, source, channel, data, |n.sent|);
    PublishLocal(cfg, n, channel, data, msg.pub).(sent := n.sent + [msg])
  }

  // ---- presence ------------------------------------------------------------

  // The JSON text of a presence event; `vid` is left out when it is empty.
  function PresenceText(cfg: Config, p: Presence): string {
    "{\"op\":\"vi_online\",\"status\":" + (if p.online then "true" else "false")
    + (if p.vid != "" then ",\"vid\":" + cfg.json.quote(p.vid) else "") + "}"
  }

  function PublishPresence<S>(cfg: Config, n: Node<S>, s: S, p: Presence): (m: Node<S>)
    requires s in n.socks
    ensures m.socks.Keys == n.socks.Keys
  {
    var a := Put(n, s, n.socks[s].(announced := n.socks[s].announced + [p]));
    ServerPublish(cfg, a, s, p.channel, PresenceText(cfg, p))
  }

  function SiteChannel(token: Token): string { "ous_" + Itoa(token.instanceID) }

  // ---- subscribing ---------------------------------------------------------

  predicate IsChatChannel(token: Token, channel: string) {
    Contains(channel, "chat_") && token.isVisitor
  }

  // The part of handleSubscribe that looks at the token.
  predicate Admits(cfg: Config, token: Token, channel: string) {
    IsChatChannel(token, channel) ==>
      token.isChatToken && (cfg.strictChannelBinding ==> channel == token.chanelName)
  }

  datatype Verdict = Accepted(token: Token) | Refused(error: string)

  function SubscribeVerdict<S>(cfg: Config, s: Sock<S>, channel: string): Verdict {
    if channel == "" then Refused("InvalidActionError")
    else if !s.handshaken then Refused("InvalidActionError")
    else if s.token.None? then Refused("UnauthorizedError")
    else if !Admits(cfg, s.token.value, channel) then Refused("UnauthorizedError")
    else if channel !in s.subs && |s.subs| >= cfg.channelLimit then Refused("InvalidActionError")
    else Accepted(s.token.value)
  }

  // The presence event that an accepted subscription announces.
  function OnlineEvent(cfg: Config, token: Token, channel: string): Option<Presence> {
    if IsChatChannel(token, channel) then Some(Presence(channel, true, ""))
    else if token.isVisitor && cfg.trackVisitors then Some(Presence(SiteChannel(token), true, LastTokenPart(token.chanelName)))
    else None
  }

  function Announce<S>(cfg: Config, n: Node<S>, s: S, p: Option<Presence>): (m: Node<S>)
    requires s in n.socks
    ensures m.socks.Keys == n.socks.Keys
  {
    if p.Some? then PublishPresence(cfg, n, s, p.value) else n
  }

  // What the socket itself records of an accepted subscription.
  function Subscribed<S>(s: Sock<S>, token: Token, channel: string): Sock<S> {
    var t := s.(subs := s.subs + {channel});
    if IsChatChannel(token, channel) then t.(token := Some(token.(chanelNameChat := channel))) else t
  }

  // An accepted subscription, but for the answer.
  function Admit<S>(cfg: Config, n: Node<S>, s: S, token: Token, channel: string): (m: Node<S>)
    requires s in n.socks
    ensures m.socks.Keys == n.socks.Keys
  {
    var a := Put(n, s, Subscribed(n.socks[s], token, channel));
    HubAdd(Announce(cfg, a, s, OnlineEvent(cfg, token, channel)), s, channel)
  }

  function HandleSubscribe<S>(cfg: Config, n: Node<S>, s: S, cid: Option<int>, channel: string, batch: bool): Node<S>
    requires s in n.socks
  {
    match SubscribeVerdict(cfg, n.socks[s], channel)
    case Refused(error) => Put(n, s, Refuse(cfg, n.socks[s], cid, error))
    case Accepted(token) =>
      var m := Admit(cfg, n, s, token, channel);
      Put(m, s, Reply(cfg, m.socks[s], cid, if batch then Batch else Empty))
  }

  function HandleUnsubscribe<S>(cfg: Config, n: Node<S>, s: S, cid: Option<int>, channel: string): Node<S>
    requires s in n.socks
  {
    if channel == "" then n
    else
      var sock := n.socks[s];
      var a := if channel in sock.subs then HubRemove(Put(n, s, sock.(subs := sock.subs - {channel})), s, channel) else n;
      Put(a, s, Reply(cfg, a.socks[s], cid, Empty))
  }

  function HandlePublish<S>(cfg: Config, n: Node<S>, s: S, cid: Option<int>, channel: string, data: string): Node<S>
    requires s in n.socks
  {
    var a := Put(n, s, Reply(cfg, n.socks[s], cid, Empty));
    if channel == "" || !cfg.allowClientPublish then a
    else if cfg.restrictClientPublish && channel !in a.socks[s].subs then a
    else ServerPublish(cfg, a, s, channel, data)
  }

  // handleEvent, for the events that concern the socket alone
  function HandleAlone<S>(cfg: Config, s: Sock<S>, ev: Event, now: int): Sock<S> {
    match ev
    case Handshake(cid, auth) => HandleHandshake(cfg, s, cid, auth, now)
    case LoginEvent(cid, request) => HandleLogin(cfg, s, cid, request, now)
    case Authenticate(cid, signed) => HandleAuthenticate(cfg, s, cid, signed, now)
    case RemoveAuthToken(cid) => Reply(cfg, SetToken(s, None), cid, Empty)
    case Disconnect => CloseWith(s)
    case Unknown(cid, _) => Refuse(cfg, s, cid, "UnknownEventError")
    case _ => s
  }

  function Handle<S>(cfg: Config, n: Node<S>, s: S, ev: Event, now: int): Node<S>
    requires s in n.socks
  {
    match ev
    case SubscribeEvent(cid, channel, batch) => HandleSubscribe(cfg, n, s, cid, channel, batch)
    case UnsubscribeEvent(cid, channel) => HandleUnsubscribe(cfg, n, s, cid, channel)
    case PublishEvent(cid, channel, data) => HandlePublish(cfg, n, s, cid, channel, data)
    case _ => Put(n, s, HandleAlone(cfg, n.socks[s], ev, now))
  }

  // ---- the end of a connection ---------------------------------------------

  // hub.Remove for every channel, in the order of `channels`.
  function RemoveAll<S>(n: Node<S>, s: S, channels: seq<string>): (m: Node<S>)
    ensures m.socks == n.socks
    decreases |channels|
  {
    if channels == [] then n else RemoveAll(HubRemove(n, s, channels[0]), s, channels[1..])
  }

  // The presence event of a socket that leaves with this token.
  function OfflineEvent(cfg: Config, token: Option<Token>): Option<Presence> {
    if token.None? || !token.value.isVisitor then None
    else if token.value.chanelNameChat != "" then Some(Presence(token.value.chanelNameChat, false, ""))
    else if cfg.trackVisitors then Some(Presence(SiteChannel(token.value), false, LastTokenPart(token.value.chanelName)))
    else None
  }

  // unregisterSocket and cleanup; `channels` lists the subscriptions in the order
  // in which the map is walked.
  function Cleanup<S>(cfg: Config, n: Node<S>, s: S, channels: seq<string>): Node<S>
    requires s in n.socks
  {
    var sock := n.socks[s];
    var a := Put(n, s, sock.(subs := {})).(registered := n.registered - {s});
    var b := RemoveAll(a, s, channels);
    var c := Announce(cfg, b, s, OfflineEvent(cfg, sock.token));
    Put(c, s, c.socks[s].(closed := true, gone := true))
  }

  // ---- steps ---------------------------------------------------------------

  datatype Step<S> =
    | Connect(s: S)
    | Receive(s: S, ev: Event, now: int)
    | ReceivePing(s: S)
    | Tick(s: S)
    | Close(s: S)
    | Write(s: S)
    | WriteFails(s: S)
    | Leave(s: S, channels: seq<string>)
    | Deliver(channel: string, data: string, pub: PubId<S>)

  predicate Live<S>(n: Node<S>, s: S) { s in n.socks && !n.socks[s].gone }

  // Handlers run until cleanup, on a closed socket too: what the peer sent before
  // may still be read. Only an open socket writes; a failed write ends the writer.
  ghost predicate Enabled<S>(n: Node<S>, step: Step<S>) {
    match step
    case Connect(s) => s !in n.socks
    case Receive(s, _, _) => Live(n, s)
    case ReceivePing(s) => Live(n, s)
    case Tick(s) => Live(n, s)
    case Close(s) => Live(n, s)
    case Write(s) => Live(n, s) && !n.socks[s].closed && n.socks[s].queue != []
    case WriteFails(s) => Live(n, s) && n.socks[s].queue != []
    case Leave(s, channels) => Live(n, s) && forall c :: c in channels <==> c in n.socks[s].subs
    case Deliver(_, _, _) => true
  }

  // writeLoop: one packet leaves the queue, and is written or lost.
  function Written<S>(s: Sock<S>): Sock<S>
    requires s.queue != []
  {
    s.(queue := s.queue[1..], written := s.written + [s.queue[0]])
  }

  function Lost<S>(s: Sock<S>): Sock<S>
    requires s.queue != []
  {
    s.(queue := s.queue[1..], closed := true)
  }

  ghost function Next<S>(cfg: Config, n: Node<S>, step: Step<S>): Node<S>
    requires Enabled(n, step)
  {
    match step
    case Connect(s) => Put(n, s, NewSock()).(registered := n.registered + {s})
    case Receive(s, ev, now) => Handle(cfg, n, s, ev, now)
    case ReceivePing(s) => Put(n, s, Enqueue(cfg, n.socks[s], Pong))
    case Tick(s) => Put(n, s, Enqueue(cfg, n.socks[s], Ping))
    case Close(s) => Put(n, s, CloseWith(n.socks[s]))
    case Write(s) => Put(n, s, Written(n.socks[s]))
    case WriteFails(s) => Put(n, s, Lost(n.socks[s]))
    case Leave(s, channels) => Cleanup(cfg, n, s, channels)
    case Deliver(channel, data, pub) => PublishLocal(cfg, n, channel, data, pub)
  }

  function NewNode<S>(): Node<S> { Node(map[], {}, map[], {}, [], []) }
}
