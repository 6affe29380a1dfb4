// The server process as it runs: objects with fields, each method proved to do what
// the step function of Node.dfy says. Sockets are compared by identity.
module Server {
  import opened Prelude
  import opened Auth
  import opened Node
  import opened Contents
  import RedisWire

  // socket.go: what one connection keeps.
  class Socket {
    var handshaken: bool
    var authed: bool
    var token: Option<Token>
    var subs: set<string>
    var callID: nat
    var closed: bool
    var gone: bool
    var outbound: seq<Packet<Socket>>
    ghost var written: seq<Packet<Socket>>
    ghost var offered: seq<Packet<Socket>>
    ghost var announced: seq<Presence>

    ghost function State(): Sock<Socket>
      reads this
    {
      Sock(handshaken, authed, token, subs, callID, closed, gone, outbound, written, offered, announced)
    }

    constructor ()
      ensures State() == NewSock()
    {
      handshaken, authed, token, subs, callID := false, false, None, {}, 0;
      closed, gone, outbound := false, false, [];
      written, offered, announced := [], [], [];
    }

    method CloseSocket()
      modifies this
      ensures State() == CloseWith(old(State()))
    {
      closed := true;
    }

    method EnqueueText(cfg: Config, p: Packet<Socket>)
      modifies this
      ensures State() == Enqueue(cfg, old(State()), p)
    {
      if closed {
        return;
      }
      offered := offered + [p];
      if |outbound| < cfg.sendBuffer {
        outbound := outbound + [p];
      } else {
        CloseSocket();
      }
    }

    method Respond(cfg: Config, cid: Option<int>, body: Body)
      modifies this
      ensures State() == Reply(cfg, old(State()), cid, body)
    {
      if cid.Some? {
        EnqueueText(cfg, Response(cid.value, body));
      }
    }

    method RespondError(cfg: Config, cid: Option<int>, name: string)
      modifies this
      ensures State() == Refuse(cfg, old(State()), cid, name)
    {
      if cid.Some? {
        EnqueueText(cfg, ErrorResponse(cid.value, name));
      }
    }

    method SetAuthState(token: Token)
      modifies this
      ensures State() == SetToken(old(State()), Some(token))
    {
      this.token := Some(token);
      authed := true;
    }

    method SetUnauthenticated()
      modifies this
      ensures State() == SetToken(old(State()), None)
    {
      token := None;
      authed := false;
    }

    // The token that a client presents, if it is good.
    method Authenticated(signed: Signed, now: int) returns (error: Option<string>)
      modifies this
      ensures State() == AfterVerify(old(State()), VerifyToken(signed, now))
      ensures error == if VerifyToken(signed, now).Valid? then None else Some(ErrorName(VerifyToken(signed, now)))
    {
      var v := VerifyToken(signed, now);
      if v.Valid? {
        SetAuthState(v.token);
        error := None;
      } else {
        SetUnauthenticated();
        error := Some(ErrorName(v));
      }
    }

    method OnHandshake(cfg: Config, cid: Option<int>, auth: Option<Signed>, now: int)
      modifies this
      ensures State() == HandleHandshake(cfg, old(State()), cid, auth, now)
    {
      var error: Option<string> := None;
      if auth.Some? {
        error := Authenticated(auth.value, now);
      } else {
        SetUnauthenticated();
      }
      handshaken := true;
      Respond(cfg, cid, Status(authed, error));
    }

    method OnAuthenticate(cfg: Config, cid: Option<int>, signed: Option<Signed>, now: int)
      modifies this
      ensures State() == HandleAuthenticate(cfg, old(State()), cid, signed, now)
    {
      var error: Option<string> := None;
      if signed.Some? {
        error := Authenticated(signed.value, now);
      }
      Respond(cfg, cid, Status(authed, error));
    }

    method OnLogin(cfg: Config, cid: Option<int>, r: LoginRequest, now: int)
      modifies this
      ensures State() == HandleLogin(cfg, old(State()), cid, r, now)
    {
      var result := LoginResult(cfg, r, now);
      if result.None? {
        RespondError(cfg, cid, "LoginFailedError");
        return;
      }
      var (token, signed) := result.value;
      Respond(cfg, cid, Empty);
      SetAuthState(token);
      callID := callID + 1;
      EnqueueText(cfg, SetAuthToken(signed, callID));
    }

    // handleEvent, for the events that concern the socket alone
    method OnEvent(cfg: Config, ev: Event, now: int)
      requires !ev.SubscribeEvent? && !ev.UnsubscribeEvent? && !ev.PublishEvent?
      modifies this
      ensures State() == HandleAlone(cfg, old(State()), ev, now)
    {
      match ev
      case Handshake(cid, auth) => OnHandshake(cfg, cid, auth, now);
      case LoginEvent(cid, request) => OnLogin(cfg, cid, request, now);
      case Authenticate(cid, signed) => OnAuthenticate(cfg, cid, signed, now);
      case RemoveAuthToken(cid) =>
        SetUnauthenticated();
        Respond(cfg, cid, Empty);
      case Disconnect => CloseSocket();
      case Unknown(cid, _) => RespondError(cfg, cid, "UnknownEventError");
    }

    // One round of writeLoop; `ok` is how the write went.
    method WriteNext(ok: bool)
      requires outbound != [] && (ok ==> !closed)
      modifies this
      ensures State() == if ok then Written(old(State())) else Lost(old(State()))
    {
      var payload := outbound[0];
      outbound := outbound[1..];
      if ok {
        written := written + [payload];
      } else {
        closed := true;
      }
    }
  }

  // redis.go: what the bridge has on record; `commands` and `sent` are the histories
  // of its two connections.
  class Bridge {
    const instanceID: string
    var subscribed: set<string>
    ghost var commands: seq<Command>
    ghost var sent: seq<Message<Socket>>
    var serial: nat

    constructor (instanceID: string)
      ensures subscribed == {} && commands == [] && sent == [] && serial == 0 && this.instanceID == instanceID
    {
      this.instanceID := instanceID;
      subscribed, commands, sent, serial := {}, [], [], 0;
    }

    // The node `n` has this bridge.
    ghost predicate In(n: Node<Socket>)
      reads this
    {
      n.subscribed == subscribed && n.commands == commands && n.sent == sent && serial == |sent|
    }

    method OnFirstSubscribe(channel: string, ghost n: Node<Socket>)
      requires In(n)
      modifies this
      ensures In(EnsureSubscribed(n, channel))
    {
      if channel in subscribed {
        return;
      }
      subscribed := subscribed + {channel};
      commands := commands + [Subscribe(channel)];
    }

    method OnLastUnsubscribe(channel: string, ghost n: Node<Socket>)
      requires In(n)
      modifies this
      ensures In(EnsureUnsubscribed(n, channel))
    {
      if channel !in subscribed {
        return;
      }
      subscribed := subscribed - {channel};
      commands := commands + [Unsubscribe(channel)];
    }

    method Send(cfg: Config, source: Socket, channel: string, data: string)
      requires instanceID == cfg.instanceID && serial == |sent|
      modifies this
      ensures subscribed == old(subscribed) && commands == old(commands)
      ensures serial == |sent| && sent == old(sent) + [MessageOf(cfg, source, channel, data, old(|sent|))]
      ensures Carries(cfg, sent[|sent| - 1], channel, data) && sent[|sent| - 1].pub == PubId(instanceID, Some(source), old(serial))
    {
      MessageCarries(cfg, source, channel, data, serial);
      hide Carries;
      sent := sent + [MessageOf(cfg, source, channel, data, serial)];
      serial := serial + 1;
    }
  }

  // hub.go: who is on which channel. Its hooks are the bridge's.
  class Hub {
    const bridge: Bridge
    var subs: map<string, set<Socket>>

    constructor (bridge: Bridge)
      ensures subs == map[] && this.bridge == bridge
    {
      this.bridge := bridge;
      subs := map[];
    }

    ghost predicate In(n: Node<Socket>)
      reads this, bridge
    {
      n.hub == subs && bridge.In(n)
    }

    function Targets(channel: string): set<Socket>
      reads this
    {
      if channel in subs then subs[channel] else {}
    }

    method Add(s: Socket, channel: string, ghost n: Node<Socket>) returns (first: bool)
      requires In(n)
      modifies this, bridge
      ensures In(HubAdd(n, s, channel)) && first == (channel !in n.hub)
    {
      first := channel !in subs;
      subs := subs[channel := Targets(channel) + {s}];
      if first {
        bridge.OnFirstSubscribe(channel, n.(hub := subs));
      }
    }

    method Remove(s: Socket, channel: string, ghost n: Node<Socket>) returns (last: bool)
      requires In(n)
      modifies this, bridge
      ensures In(HubRemove(n, s, channel))
      ensures last == (channel in n.hub && s in n.hub[channel] && n.hub[channel] == {s})
    {
      last := false;
      if channel in subs && s in subs[channel] {
        var left := subs[channel] - {s};
        if left == {} {
          subs := subs - {channel};
          last := true;
        } else {
          subs := subs[channel := left];
        }
      }
      if last {
        bridge.OnLastUnsubscribe(channel, n.(hub := subs));
      }
    }

    // The packet is made once, and offered to every target; closed sockets are passed
    // over.
    method Fan(cfg: Config, channel: string, data: string, pub: PubId<Socket>)
      modifies Targets(channel)
      ensures subs == old(subs)
      ensures var packet := PublishPacket(channel, if data == "" then "null" else data, pub);
        forall s | s in Targets(channel) ::
          s.State() == if data == "" || cfg.json.valid(data) then Enqueue(cfg, old(s.State()), packet) else old(s.State())
    {
      var targets := Targets(channel);
      var packet := EncodePublish(cfg, channel, data, pub);
      if packet.None? {
        return;
      }
      var left := targets;
      while left != {}
        invariant left <= targets && subs == old(subs)
        invariant forall s | s in left :: s.State() == old(s.State())
        invariant forall s | s in targets && s !in left :: s.State() == Enqueue(cfg, old(s.State()), packet.value)
        decreases |left|
      {
        var s :| s in left;
        left := left - {s};
        if !s.closed {
          s.EnqueueText(cfg, packet.value);
        }
      }
    }
  }

  // main.go: the process.
  class Process {
    const cfg: Config
    const bridge: Bridge
    const hub: Hub
    var sockets: set<Socket>
    ghost var all: set<Socket>    // every socket there ever was

    constructor (cfg: Config)
      ensures Valid() && View() == NewNode() && this.cfg == cfg
      ensures fresh(hub) && fresh(bridge)
    {
      this.cfg := cfg;
      var b := new Bridge(cfg.instanceID);
      bridge := b;
      hub := new Hub(b);
      sockets := {};
      all := {};
    }

    ghost predicate Valid()
      reads this, hub, bridge
    {
      && hub.bridge == bridge && bridge.instanceID == cfg.instanceID && bridge.serial == |bridge.sent|
      && forall c | c in hub.subs :: hub.subs[c] <= all
    }

    ghost function View(): Node<Socket>
      reads this, hub, bridge, all
    {
      Node(map s | s in all :: s.State(), sockets, hub.subs, bridge.subscribed, bridge.commands, bridge.sent)
    }

    // Of the whole process only the socket `s` has changed.
    twostate lemma OnlyOne(s: Socket)
      requires s in all && unchanged(this) && unchanged(hub) && unchanged(bridge)
      requires forall r | r in all && r != s :: r.State() == old(r.State())
      ensures View() == Put(old(View()), s, s.State())
    {
      assert View().socks == Put(old(View()), s, s.State()).socks;
    }

    method Register() returns (s: Socket)
      requires Valid()
      modifies this
      ensures Valid() && fresh(s) && View() == Next(cfg, old(View()), Step.Connect(s))
    {
      s := new Socket();
      sockets := sockets + {s};
      all := all + {s};
    }

    // closeAllSockets, and the like: one socket is closed by the server.
    method CloseOne(s: Socket)
      requires Valid() && s in all
      modifies s
      ensures Valid() && View() == Put(old(View()), s, CloseWith(old(s.State())))
    {
      s.CloseSocket();
    }

    // pingLoop, when the peer was active lately: a ping is queued.
    method OnTick(s: Socket)
      requires Valid() && s in all
      modifies s
      ensures Valid() && View() == Put(old(View()), s, Enqueue(cfg, old(s.State()), Packet.Ping))
    {
      s.EnqueueText(cfg, Packet.Ping);
      OnlyOne(s);
    }

    // A ping of a very old client is answered.
    method OnPing(s: Socket)
      requires Valid() && s in all
      modifies s
      ensures Valid() && View() == Put(old(View()), s, Enqueue(cfg, old(s.State()), Packet.Pong))
    {
      s.EnqueueText(cfg, Packet.Pong);
      OnlyOne(s);
    }

    // One round of a socket's writeLoop; `ok` is how the write went.
    method WriteOne(s: Socket, ok: bool)
      requires Valid() && s in all && s.outbound != [] && (ok ==> !s.closed)
      modifies s
      ensures Valid() && View() == Put(old(View()), s, if ok then Written(old(s.State())) else Lost(old(s.State())))
    {
      s.WriteNext(ok);
      OnlyOne(s);
    }

    // Server.publish
    method Publish(source: Socket, channel: string, data: string)
      requires Valid()
      modifies all, bridge
      ensures Valid() && View() == ServerPublish(cfg, old(View()), source, channel, data)
    {
      ghost var n := View();
      var pub := PubId(cfg.instanceID, Some(source), bridge.serial);
      hub.Fan(cfg, channel, data, pub);
      ghost var m := PublishLocal(cfg, n, channel, data, pub);
      assert View().socks == m.socks;
      bridge.Send(cfg, source, channel, data);
    }

    // deliver: what comes from Redis is only fanned out here.
    method Deliver(channel: string, data: string, pub: PubId<Socket>)
      requires Valid()
      modifies all
      ensures Valid() && View() == PublishLocal(cfg, old(View()), channel, data, pub)
    {
      ghost var n := View();
      hub.Fan(cfg, channel, data, pub);
      assert View().socks == PublishLocal(cfg, n, channel, data, pub).socks;
    }

    // redisBridge.handleMessage
    method OnMessage(channel: string, raw: string, pub: PubId<Socket>)
      requires Valid()
      modifies all
      ensures Valid()
      ensures var data := RedisWire.Decode(cfg.json, cfg.instanceID, raw);
        View() == if data.Some? then PublishLocal(cfg, old(View()), channel, data.value, pub) else old(View())
    {
      var data := RedisWire.Decode(cfg.json, cfg.instanceID, raw);
      hide RedisWire.Decode, PublishLocal;
      if data.Some? {
        Deliver(channel, data.value, pub);
      }
    }

    method AnnouncePresence(s: Socket, p: Presence)
      requires Valid() && s in all
      modifies all, bridge
      ensures Valid() && View() == PublishPresence(cfg, old(View()), s, p)
    {
      hide ServerPublish, PresenceText;
      s.announced := s.announced + [p];
      OnlyOne(s);
      Publish(s, p.channel, PresenceText(cfg, p));
    }

    // The presence event that goes with a token, if any.
    method AnnounceIf(s: Socket, p: Option<Presence>)
      requires Valid() && s in all
      modifies all, bridge
      ensures Valid() && View() == Announce(cfg, old(View()), s, p)
    {
      if p.Some? {
        AnnouncePresence(s, p.value);
      }
    }

    method Respond(s: Socket, cid: Option<int>, body: Body)
      requires Valid() && s in all
      modifies s
      ensures Valid() && View() == Put(old(View()), s, Reply(cfg, old(s.State()), cid, body))
    {
      s.Respond(cfg, cid, body);
      OnlyOne(s);
    }

    method RespondError(s: Socket, cid: Option<int>, name: string)
      requires Valid() && s in all
      modifies s
      ensures Valid() && View() == Put(old(View()), s, Refuse(cfg, old(s.State()), cid, name))
    {
      s.RespondError(cfg, cid, name);
      OnlyOne(s);
    }

    // Hub.Add with its hook
    method Join(s: Socket, channel: string)
      requires Valid() && s in all
      modifies hub, bridge
      ensures Valid() && View() == HubAdd(old(View()), s, channel)
    {
      ghost var n := View();
      var first := hub.Add(s, channel, n);
      assert View().socks == n.socks;
    }

    // Hub.Remove with its hook
    method Part(s: Socket, channel: string)
      requires Valid() && s in all
      modifies hub, bridge
      ensures Valid() && View() == HubRemove(old(View()), s, channel)
    {
      ghost var n := View();
      var last := hub.Remove(s, channel, n);
      assert View().socks == n.socks;
    }

    // An accepted subscription: it is noted, announced, and joined to the hub.
    method Accept(s: Socket, channel: string, token: Token)
      requires Valid() && s in all && s.token == Some(token)
      modifies all, hub, bridge
      ensures Valid() && View() == Admit(cfg, old(View()), s, token, channel)
    {
      hide Announce, HubAdd, OnlineEvent;
      s.subs := s.subs + {channel};
      if IsChatChannel(token, channel) {
        s.token := Some(token.(chanelNameChat := channel));
      }
      OnlyOne(s);
      AnnounceIf(s, OnlineEvent(cfg, token, channel));
      Join(s, channel);
    }

    method OnSubscribe(s: Socket, cid: Option<int>, channel: string, batch: bool)
      requires Valid() && s in all
      modifies all, hub, bridge
      ensures Valid() && View() == HandleSubscribe(cfg, old(View()), s, cid, channel, batch)
    {
      hide Admit, Reply, Refuse;
      if channel == "" || !s.handshaken {
        RespondError(s, cid, "InvalidActionError");
        return;
      }
      if s.token.None? || !Admits(cfg, s.token.value, channel) {
        RespondError(s, cid, "UnauthorizedError");
        return;
      }
      if channel !in s.subs && |s.subs| >= cfg.channelLimit {
        RespondError(s, cid, "InvalidActionError");
        return;
      }
      Accept(s, channel, s.token.value);
      Respond(s, cid, if batch then Batch else Empty);
    }

    method OnUnsubscribe(s: Socket, cid: Option<int>, channel: string)
      requires Valid() && s in all
      modifies all, hub, bridge
      ensures Valid() && View() == HandleUnsubscribe(cfg, old(View()), s, cid, channel)
    {
      hide HubRemove, Reply;
      if channel == "" {
        return;
      }
      if channel in s.subs {
        s.subs := s.subs - {channel};
        OnlyOne(s);
        Part(s, channel);
      }
      Respond(s, cid, Empty);
    }

    method OnPublish(s: Socket, cid: Option<int>, channel: string, data: string)
      requires Valid() && s in all
      modifies all, bridge
      ensures Valid() && View() == HandlePublish(cfg, old(View()), s, cid, channel, data)
    {
      hide ServerPublish, Reply;
      Respond(s, cid, Empty);
      if channel == "" || !cfg.allowClientPublish {
        return;
      }
      if cfg.restrictClientPublish && channel !in s.subs {
        return;
      }
      Publish(s, channel, data);
    }

    // Socket.handleEvent
    method OnEvent(s: Socket, ev: Event, now: int)
      requires Valid() && s in all
      modifies all, hub, bridge
      ensures Valid() && View() == Handle(cfg, old(View()), s, ev, now)
    {
      hide HandleSubscribe, HandleUnsubscribe, HandlePublish, HandleAlone;
      match ev
      case SubscribeEvent(cid, channel, batch) => OnSubscribe(s, cid, channel, batch);
      case UnsubscribeEvent(cid, channel) => OnUnsubscribe(s, cid, channel);
      case PublishEvent(cid, channel, data) => OnPublish(s, cid, channel, data);
      case _ =>
        s.OnEvent(cfg, ev, now);
        OnlyOne(s);
    }

    // hub.Remove for every channel in turn
    method PartAll(s: Socket, channels: seq<string>)
      requires Valid() && s in all
      modifies hub, bridge
      ensures Valid() && View() == RemoveAll(old(View()), s, channels)
    {
      hide HubRemove;
      var i := 0;
      while i < |channels|
        invariant 0 <= i <= |channels| && Valid()
        invariant RemoveAll(View(), s, channels[i..]) == RemoveAll(old(View()), s, channels)
      {
        assert channels[i..][0] == channels[i] && channels[i..][1..] == channels[i + 1..];
        Part(s, channels[i]);
        i := i + 1;
      }
      assert channels[i..] == [];
    }

    method Unregister(s: Socket)
      requires Valid()
      modifies this`sockets
      ensures Valid() && View() == old(View()).(registered := old(sockets) - {s})
    {
      ghost var n := View();
      sockets := sockets - {s};
      assert View().socks == n.socks;
    }

    method DropSubs(s: Socket)
      requires Valid() && s in all
      modifies s
      ensures Valid() && View() == Put(old(View()), s, old(s.State()).(subs := {}))
    {
      s.subs := {};
      OnlyOne(s);
    }

    method Finish(s: Socket)
      requires Valid() && s in all
      modifies s
      ensures Valid() && View() == Put(old(View()), s, old(s.State()).(closed := true, gone := true))
    {
      s.closed := true;
      s.gone := true;
      OnlyOne(s);
    }

    // unregisterSocket and Socket.cleanup; `channels` is the map of subscriptions as
    // it is walked.
    method OnLeave(s: Socket, channels: seq<string>)
      requires Valid() && s in all
      modifies this`sockets, all, hub, bridge
      ensures Valid() && View() == Cleanup(cfg, old(View()), s, channels)
    {
      hide RemoveAll, Announce, OfflineEvent;
      var token := s.token;
      Unregister(s);
      DropSubs(s);
      PartAll(s, channels);
      AnnounceIf(s, OfflineEvent(cfg, token));
      Finish(s);
    }
  }
}
