// What every step of one server process keeps, and with it every run: the books of
// sockets, hub and bridge agree, and no packet goes missing on an open socket.
module NodeRuns {
  import opened Prelude
  import opened Auth
  import opened Node

  // ---- packets -------------------------------------------------------------

  // The publications among some packets.
  function Pubs<S>(ps: seq<Packet<S>>): seq<PubId<S>> {
    if ps == [] then []
    else
      var front := Pubs(ps[..|ps| - 1]);
      var last := ps[|ps| - 1];
      if last.PublishPacket? then front + [last.pub] else front
  }

  lemma PubsOfOne<S>(ps: seq<Packet<S>>, p: Packet<S>)
    ensures Pubs(ps + [p]) == if p.PublishPacket? then Pubs(ps) + [p.pub] else Pubs(ps)
  {
    assert (ps + [p])[..|ps|] == ps;
  }

  // While a socket is open, what is written and what is queued is what was offered.
  ghost predicate Flow<S>(cfg: Config, s: Sock<S>) {
    && |s.queue| <= cfg.sendBuffer
    && s.written <= s.offered
    && (!s.closed ==> s.written + s.queue == s.offered)
  }

  // `t` is `s` after some packets, with at most the publication `pub` among them.
  ghost predicate Feeds<S>(cfg: Config, s: Sock<S>, t: Sock<S>, pub: seq<PubId<S>>) {
    && (Flow(cfg, s) ==> Flow(cfg, t))
    && (s.closed ==> t.closed && t.offered == s.offered && t.written == s.written && |t.queue| <= |s.queue|)
    && (Pubs(t.offered) == Pubs(s.offered) || Pubs(t.offered) == Pubs(s.offered) + pub)
  }

  // Nothing but packets has changed.
  ghost predicate SameButPackets<S>(s: Sock<S>, t: Sock<S>) {
    t == s.(queue := t.queue, offered := t.offered, closed := t.closed) && (s.closed ==> t.closed)
  }

  lemma FeedsThen<S>(cfg: Config, a: Sock<S>, b: Sock<S>, c: Sock<S>, pub: seq<PubId<S>>)
    requires (Feeds(cfg, a, b, []) && Feeds(cfg, b, c, pub)) || (Feeds(cfg, a, b, pub) && Feeds(cfg, b, c, []))
    ensures Feeds(cfg, a, c, pub)
  {
    hide Flow, Pubs;
    assert Pubs(a.offered) + [] == Pubs(a.offered);
    assert Pubs(b.offered) + [] == Pubs(b.offered);
  }

  lemma EnqueueFeeds<S>(cfg: Config, s: Sock<S>, p: Packet<S>)
    ensures SameButPackets(s, Enqueue(cfg, s, p))
    ensures Feeds(cfg, s, Enqueue(cfg, s, p), if p.PublishPacket? then [p.pub] else [])
  {
    PubsOfOne(s.offered, p);
    hide Pubs;
    assert s.written + s.queue == s.offered ==> s.written + (s.queue + [p]) == s.offered + [p];
    assert Pubs(s.offered) + [] == Pubs(s.offered);
  }

  // ---- handlers that only touch their socket -------------------------------

  ghost predicate SameBooks<S>(s: Sock<S>, t: Sock<S>) {
    t.subs == s.subs && t.gone == s.gone
  }

  ghost predicate StillBooked<S>(s: Sock<S>, t: Sock<S>) {
    SameBooks(s, t) && (s.closed ==> t.closed)
  }

  lemma SamePacketsFeed<S>(cfg: Config, s: Sock<S>, t: Sock<S>)
    requires t.queue == s.queue && t.written == s.written && t.offered == s.offered && t.closed == s.closed
    ensures Feeds(cfg, s, t, [])
  {
  }

  lemma ReplyFeeds<S>(cfg: Config, s: Sock<S>, cid: Option<int>, body: Body)
    ensures SameButPackets(s, Reply(cfg, s, cid, body)) && Feeds(cfg, s, Reply(cfg, s, cid, body), [])
  {
    hide Flow, Pubs;
    if cid.Some? { EnqueueFeeds(cfg, s, Response(cid.value, body)); } else { SamePacketsFeed(cfg, s, s); }
  }

  lemma RefuseFeeds<S>(cfg: Config, s: Sock<S>, cid: Option<int>, name: string)
    ensures SameButPackets(s, Refuse(cfg, s, cid, name)) && Feeds(cfg, s, Refuse(cfg, s, cid, name), [])
  {
    hide Flow, Pubs;
    if cid.Some? { EnqueueFeeds(cfg, s, ErrorResponse(cid.value, name)); } else { SamePacketsFeed(cfg, s, s); }
  }

  lemma HandshakeFeeds<S>(cfg: Config, s: Sock<S>, cid: Option<int>, auth: Option<Signed>, now: int)
    ensures SameBooks(s, HandleHandshake(cfg, s, cid, auth, now))
    ensures Feeds(cfg, s, HandleHandshake(cfg, s, cid, auth, now), [])
  {
    var v := if auth.Some? then VerifyToken(auth.value, now) else Invalid;
    var t := AfterVerify(s, v).(handshaken := true);
    SamePacketsFeed(cfg, s, t);
    hide Feeds, Reply;
    ReplyFeeds(cfg, t, cid, Status(t.authed, if auth.Some? && !v.Valid? then Some(ErrorName(v)) else None));
    FeedsThen(cfg, s, t, HandleHandshake(cfg, s, cid, auth, now), []);
  }

  lemma AuthenticateFeeds<S>(cfg: Config, s: Sock<S>, cid: Option<int>, signed: Option<Signed>, now: int)
    ensures SameBooks(s, HandleAuthenticate(cfg, s, cid, signed, now))
    ensures Feeds(cfg, s, HandleAuthenticate(cfg, s, cid, signed, now), [])
  {
    if signed.None? {
      ReplyFeeds(cfg, s, cid, Status(s.authed, None));
    } else {
      var v := VerifyToken(signed.value, now);
      var t := AfterVerify(s, v);
      SamePacketsFeed(cfg, s, t);
      hide Feeds, Reply;
      ReplyFeeds(cfg, t, cid, Status(t.authed, if v.Valid? then None else Some(ErrorName(v))));
      FeedsThen(cfg, s, t, HandleAuthenticate(cfg, s, cid, signed, now), []);
    }
  }

  lemma LoginFeeds<S>(cfg: Config, s: Sock<S>, cid: Option<int>, r: LoginRequest, now: int)
    ensures SameBooks(s, HandleLogin(cfg, s, cid, r, now))
    ensures Feeds(cfg, s, HandleLogin(cfg, s, cid, r, now), [])
  {
    hide Feeds, Reply, Refuse, Enqueue, LoginResult;
    match LoginResult(cfg, r, now)
    case None => RefuseFeeds(cfg, s, cid, "LoginFailedError");
    case Some((token, signed)) =>
      var t := Reply(cfg, s, cid, Empty);
      var u := SetToken(t, Some(token)).(callID := t.callID + 1);
      ReplyFeeds(cfg, s, cid, Empty);
      SamePacketsFeed(cfg, t, u);
      FeedsThen(cfg, s, t, u, []);
      EnqueueFeeds(cfg, u, SetAuthToken(signed, u.callID));
      FeedsThen(cfg, s, u, HandleLogin(cfg, s, cid, r, now), []);
  }

  // ---- the hub -------------------------------------------------------------

  // The hub has no empty set, and the bridge follows its channels.
  ghost predicate HubOk<S>(n: Node<S>) {
    (forall c | c in n.hub :: n.hub[c] != {}) && n.subscribed == n.hub.Keys
  }

  // The channels that Redis ends up with after some commands.
  function Replay(channels: set<string>, commands: seq<Command>): set<string> {
    if commands == [] then channels
    else
      var before := Replay(channels, commands[..|commands| - 1]);
      var last := commands[|commands| - 1];
      if last.Subscribe? then before + {last.channel} else before - {last.channel}
  }

  lemma ReplayOne(channels: set<string>, commands: seq<Command>, c: Command)
    ensures Replay(channels, commands + [c])
         == if c.Subscribe? then Replay(channels, commands) + {c.channel} else Replay(channels, commands) - {c.channel}
  {
    assert (commands + [c])[..|commands|] == commands;
  }

  ghost predicate Mirrors<S>(n: Node<S>) { Replay({}, n.commands) == n.subscribed }

  lemma AddKeeps<S>(n: Node<S>, s: S, c: string)
    requires HubOk(n)
    ensures var m := HubAdd(n, s, c);
      && m.socks == n.socks && m.registered == n.registered && m.sent == n.sent
      && n.commands <= m.commands && HubOk(m) && (Mirrors(n) ==> Mirrors(m))
      && Subscribers(m, c) == Subscribers(n, c) + {s}
      && forall d | d != c :: Subscribers(m, d) == Subscribers(n, d)
  {
    ReplayOne({}, n.commands, Subscribe(c));
    var m := HubAdd(n, s, c);
    assert m.hub.Keys == n.hub.Keys + {c};
    assert s in m.hub[c];
  }

  lemma RemoveKeeps<S>(n: Node<S>, s: S, c: string)
    requires HubOk(n)
    ensures var m := HubRemove(n, s, c);
      && m.socks == n.socks && m.registered == n.registered && m.sent == n.sent
      && n.commands <= m.commands && HubOk(m) && (Mirrors(n) ==> Mirrors(m))
      && Subscribers(m, c) == Subscribers(n, c) - {s}
      && forall d | d != c :: Subscribers(m, d) == Subscribers(n, d)
  {
    ReplayOne({}, n.commands, Unsubscribe(c));
    var m := HubRemove(n, s, c);
    if s !in Subscribers(n, c) {
      assert Subscribers(n, c) - {s} == Subscribers(n, c);
    } else if n.hub[c] - {s} == {} {
      assert m.hub.Keys == n.hub.Keys - {c};
    } else {
      assert m.hub.Keys == n.hub.Keys;
    }
  }

  lemma {:induction false} RemoveAllKeeps<S>(n: Node<S>, s: S, channels: seq<string>)
    requires HubOk(n)
    ensures var m := RemoveAll(n, s, channels);
      && m.registered == n.registered && m.sent == n.sent
      && n.commands <= m.commands && HubOk(m) && (Mirrors(n) ==> Mirrors(m))
      && forall d :: Subscribers(m, d) == if d in channels then Subscribers(n, d) - {s} else Subscribers(n, d)
    decreases |channels|
  {
    if channels != [] {
      var m := HubRemove(n, s, channels[0]);
      RemoveKeeps(n, s, channels[0]);
      RemoveAllKeeps(m, s, channels[1..]);
      hide HubRemove, HubOk, Mirrors, Subscribers;
      assert forall d :: d in channels <==> d == channels[0] || d in channels[1..];
      forall d ensures Subscribers(RemoveAll(n, s, channels), d)
                    == if d in channels then Subscribers(n, d) - {s} else Subscribers(n, d)
      {
        if d == channels[0] {
          assert Subscribers(n, d) - {s} - {s} == Subscribers(n, d) - {s};
        }
      }
    }
  }

  // ---- publishing ----------------------------------------------------------

  ghost predicate NodeFeeds<S>(cfg: Config, n: Node<S>, m: Node<S>, pub: seq<PubId<S>>) {
    n.socks.Keys <= m.socks.Keys && forall s | s in n.socks :: Feeds(cfg, n.socks[s], m.socks[s], pub)
  }

  lemma NodeFeedsThen<S>(cfg: Config, a: Node<S>, b: Node<S>, c: Node<S>, pub: seq<PubId<S>>)
    requires (NodeFeeds(cfg, a, b, []) && NodeFeeds(cfg, b, c, pub)) || (NodeFeeds(cfg, a, b, pub) && NodeFeeds(cfg, b, c, []))
    ensures NodeFeeds(cfg, a, c, pub)
  {
    hide Feeds;
    forall s | s in a.socks ensures Feeds(cfg, a.socks[s], c.socks[s], pub) {
      FeedsThen(cfg, a.socks[s], b.socks[s], c.socks[s], pub);
    }
  }

  lemma SameSocksFeed<S>(cfg: Config, n: Node<S>, m: Node<S>)
    requires m.socks == n.socks
    ensures NodeFeeds(cfg, n, m, [])
  {
    forall s | s in n.socks ensures Feeds(cfg, n.socks[s], m.socks[s], []) { SamePacketsFeed(cfg, n.socks[s], m.socks[s]); }
  }

  lemma PutFeeds<S>(cfg: Config, n: Node<S>, s: S, sock: Sock<S>)
    requires s in n.socks && Feeds(cfg, n.socks[s], sock, [])
    ensures NodeFeeds(cfg, n, Put(n, s, sock), [])
  {
    hide Feeds;
    forall r | r in n.socks && r != s ensures Feeds(cfg, n.socks[r], n.socks[r], []) { SamePacketsFeed(cfg, n.socks[r], n.socks[r]); }
  }

  // Only the packets of sockets change between `n` and `m`.
  ghost predicate Fanned<S>(n: Node<S>, m: Node<S>) {
    && m == n.(socks := m.socks, sent := m.sent)
    && m.socks.Keys == n.socks.Keys
    && forall s | s in n.socks :: SameButPackets(n.socks[s], m.socks[s])
  }

  lemma PublishLocalFeeds<S>(cfg: Config, n: Node<S>, channel: string, data: string, pub: PubId<S>)
    ensures Fanned(n, PublishLocal(cfg, n, channel, data, pub))
    ensures NodeFeeds(cfg, n, PublishLocal(cfg, n, channel, data, pub), [pub])
  {
    var m := PublishLocal(cfg, n, channel, data, pub);
    var packet := EncodePublish(cfg, channel, data, pub);
    hide Flow, Pubs, Subscribers, Enqueue;
    forall s | s in n.socks ensures SameButPackets(n.socks[s], m.socks[s]) && Feeds(cfg, n.socks[s], m.socks[s], [pub]) {
      if packet.Some? && s in Subscribers(n, channel) {
        EnqueueFeeds(cfg, n.socks[s], packet.value);
      }
    }
  }

  function PubOf<S>(cfg: Config, n: Node<S>, s: S): PubId<S> { PubId(cfg.instanceID, Some(s), |n.sent|) }

  lemma ServerPublishFeeds<S>(cfg: Config, n: Node<S>, s: S, channel: string, data: string)
    ensures var m := ServerPublish(cfg, n, s, channel, data);
      && Fanned(n, m) && NodeFeeds(cfg, n, m, [PubOf(cfg, n, s)])
      && m.sent == n.sent + [MessageOf(cfg, s, channel, data, |n.sent|)]
  {
    PublishLocalFeeds(cfg, n, channel, data, PubOf(cfg, n, s));
    hide NodeFeeds, SameButPackets, PublishLocal;
    var m := ServerPublish(cfg, n, s, channel, data);
    assert NodeFeeds(cfg, n, m, [PubOf(cfg, n, s)]) by { FeedsBySocks(cfg, n, PublishLocal(cfg, n, channel, data, PubOf(cfg, n, s)), m); }
  }

  lemma FeedsBySocks<S>(cfg: Config, n: Node<S>, m: Node<S>, k: Node<S>)
    requires k.socks == m.socks
    ensures forall pub :: NodeFeeds(cfg, n, m, pub) ==> NodeFeeds(cfg, n, k, pub)
  {
  }

  // The publication that one event comes to, if any.
  datatype Publication = Publication(channel: string, data: string)

  function PresencePublication(cfg: Config, p: Option<Presence>): Option<Publication> {
    if p.Some? then Some(Publication(p.value.channel, PresenceText(cfg, p.value))) else None
  }

  function MadeByEvent<S>(cfg: Config, s: Sock<S>, ev: Event): Option<Publication> {
    match ev
    case SubscribeEvent(_, channel, _) =>
      var v := SubscribeVerdict(cfg, s, channel);
      if v.Accepted? then PresencePublication(cfg, OnlineEvent(cfg, v.token, channel)) else None
    case PublishEvent(_, channel, data) =>
      if channel != "" && cfg.allowClientPublish && (cfg.restrictClientPublish ==> channel in s.subs)
      then Some(Publication(channel, data)) else None
    case _ => None
  }

  function Made<S>(cfg: Config, n: Node<S>, step: Step<S>): Option<Publication> {
    match step
    case Receive(s, ev, _) => if s in n.socks then MadeByEvent(cfg, n.socks[s], ev) else None
    case Leave(s, _) => if s in n.socks then PresencePublication(cfg, OfflineEvent(cfg, n.socks[s].token)) else None
    case _ => None
  }

  // The messages sent for it, and its name.
  function SentFor<S>(cfg: Config, n: Node<S>, s: S, p: Option<Publication>): seq<Message<S>> {
    if p.Some? then [MessageOf(cfg, s, p.value.channel, p.value.data, |n.sent|)] else []
  }

  function NameOf<S>(cfg: Config, n: Node<S>, s: S, p: Option<Publication>): seq<PubId<S>> {
    if p.Some? then [PubOf(cfg, n, s)] else []
  }

  ghost predicate Announced<S>(n: Node<S>, m: Node<S>, s: S, p: Option<Presence>)
    requires s in n.socks
  {
    && m == n.(socks := m.socks, sent := m.sent)
    && m.socks.Keys == n.socks.Keys
    && (forall r | r in n.socks && r != s :: SameButPackets(n.socks[r], m.socks[r]))
    && SameButPackets(n.socks[s].(announced := n.socks[s].announced + if p.Some? then [p.value] else []), m.socks[s])
  }

  lemma AnnounceFeeds<S>(cfg: Config, n: Node<S>, s: S, p: Option<Presence>)
    requires s in n.socks
    ensures var m := Announce(cfg, n, s, p); var made := PresencePublication(cfg, p);
      && Announced(n, m, s, p)
      && NodeFeeds(cfg, n, m, NameOf(cfg, n, s, made))
      && m.sent == n.sent + SentFor(cfg, n, s, made)
  {
    var m := Announce(cfg, n, s, p);
    if p.Some? {
      var t := n.socks[s].(announced := n.socks[s].announced + [p.value]);
      var a := Put(n, s, t);
      SamePacketsFeed(cfg, n.socks[s], t);
      hide Feeds, ServerPublish, PresenceText, SameButPackets;
      PutFeeds(cfg, n, s, t);
      ServerPublishFeeds(cfg, a, s, p.value.channel, PresenceText(cfg, p.value));
      NodeFeedsThen(cfg, n, a, m, [PubOf(cfg, a, s)]);
    } else {
      SameSocksFeed(cfg, n, n);
      assert n.socks[s].announced + [] == n.socks[s].announced;
    }
  }

  // ---- the books -----------------------------------------------------------

  function Limit(cfg: Config): nat { if cfg.channelLimit < 0 then 0 else cfg.channelLimit }

  ghost predicate SockBooks<S>(cfg: Config, n: Node<S>, s: S)
    requires s in n.socks
  {
    && |n.socks[s].subs| <= Limit(cfg)
    && (s in n.registered <==> !n.socks[s].gone)
    && (n.socks[s].gone ==> n.socks[s].closed && n.socks[s].subs == {})
  }

  ghost predicate Agrees<S>(n: Node<S>, s: S)
    requires s in n.socks
  {
    forall c :: s in Subscribers(n, c) <==> c in n.socks[s].subs
  }

  ghost predicate Within<S>(n: Node<S>) { forall c :: Subscribers(n, c) <= n.socks.Keys }

  // A socket holds a channel if and only if the hub has it there; the hub keeps no
  // empty set and the bridge's record is the hub's channels, which is also what
  // Redis was told; nobody is over the limit, and who is gone is nowhere.
  ghost predicate Books<S>(cfg: Config, n: Node<S>) {
    && HubOk(n) && Mirrors(n)
    && n.registered <= n.socks.Keys
    && Within(n)
    && (forall s | s in n.socks :: SockBooks(cfg, n, s) && Agrees(n, s))
  }

  // The books agree after a step that changes no subscription.
  lemma BooksOfSame<S>(cfg: Config, n: Node<S>, m: Node<S>)
    requires Books(cfg, n)
    requires m == n.(socks := m.socks, sent := m.sent) && m.socks.Keys == n.socks.Keys
    requires forall s | s in n.socks :: StillBooked(n.socks[s], m.socks[s])
    ensures Books(cfg, m)
  {
    assert forall c :: Subscribers(m, c) == Subscribers(n, c);
    hide Subscribers;
    forall s | s in m.socks ensures SockBooks(cfg, m, s) && Agrees(m, s) {
      assert SockBooks(cfg, n, s) && Agrees(n, s);
    }
  }

  lemma BooksOfPut<S>(cfg: Config, n: Node<S>, s: S, t: Sock<S>)
    requires Books(cfg, n) && s in n.socks && SameBooks(n.socks[s], t) && Feeds(cfg, n.socks[s], t, [])
    ensures Books(cfg, Put(n, s, t)) && NodeFeeds(cfg, n, Put(n, s, t), [])
  {
    PutFeeds(cfg, n, s, t);
    var m := Put(n, s, t);
    assert forall r | r in n.socks :: StillBooked(n.socks[r], m.socks[r]);
    hide Books, NodeFeeds, Feeds;
    BooksOfSame(cfg, n, m);
  }

  ghost predicate Handled<S>(cfg: Config, n: Node<S>, m: Node<S>, s: S, p: Option<Publication>) {
    && Books(cfg, m)
    && NodeFeeds(cfg, n, m, NameOf(cfg, n, s, p))
    && m.sent == n.sent + SentFor(cfg, n, s, p)
    && n.commands <= m.commands
    && m.socks.Keys == n.socks.Keys
  }

  lemma PutHandled<S>(cfg: Config, n: Node<S>, s: S, t: Sock<S>)
    requires Books(cfg, n) && s in n.socks && SameBooks(n.socks[s], t) && Feeds(cfg, n.socks[s], t, [])
    ensures Handled(cfg, n, Put(n, s, t), s, None)
  {
    BooksOfPut(cfg, n, s, t);
    assert n.sent + [] == n.sent;
  }

  // One more packet for `s` after a step that was handled.
  lemma ReplyHandled<S>(cfg: Config, n: Node<S>, m: Node<S>, s: S, cid: Option<int>, body: Body, p: Option<Publication>)
    requires Handled(cfg, n, m, s, p) && s in m.socks
    ensures Handled(cfg, n, Put(m, s, Reply(cfg, m.socks[s], cid, body)), s, p)
  {
    hide NodeFeeds, Books, Feeds, Reply;
    ReplyFeeds(cfg, m.socks[s], cid, body);
    BooksOfPut(cfg, m, s, Reply(cfg, m.socks[s], cid, body));
    NodeFeedsThen(cfg, n, m, Put(m, s, Reply(cfg, m.socks[s], cid, body)), NameOf(cfg, n, s, p));
  }

  // The hub of `m` is that of `n` but for `s` on channel `c`, and so are the sockets.
  lemma BooksOfOne<S>(cfg: Config, n: Node<S>, m: Node<S>, s: S, c: string)
    requires Books(cfg, n) && s in n.socks
    requires HubOk(m) && Mirrors(m)
    requires m.registered == n.registered && m.socks.Keys == n.socks.Keys
    requires forall r | r in n.socks && r != s :: StillBooked(n.socks[r], m.socks[r])
    requires forall d | d != c :: Subscribers(m, d) == Subscribers(n, d)
    requires Subscribers(m, c) - {s} == Subscribers(n, c) - {s}
    requires SockBooks(cfg, m, s) && Agrees(m, s)
    ensures Books(cfg, m)
  {
    hide Subscribers, HubOk, Mirrors;
    forall r | r in m.socks ensures SockBooks(cfg, m, r) && Agrees(m, r) {
      assert SockBooks(cfg, n, r) && Agrees(n, r);
      if r != s {
        forall d ensures r in Subscribers(m, d) <==> r in Subscribers(n, d) {
          assert r in Subscribers(m, c) <==> r in Subscribers(m, c) - {s};
          assert r in Subscribers(n, c) <==> r in Subscribers(n, c) - {s};
        }
      }
    }
    forall d ensures Subscribers(m, d) <= m.socks.Keys {
      assert Subscribers(n, d) <= n.socks.Keys;
      if d == c { assert Subscribers(m, c) <= (Subscribers(m, c) - {s}) + {s}; }
    }
  }

  lemma SameHub<S>(n: Node<S>, m: Node<S>)
    requires m.hub == n.hub && m.subscribed == n.subscribed && m.commands == n.commands
    ensures HubOk(n) ==> HubOk(m)
    ensures Mirrors(n) ==> Mirrors(m)
    ensures forall d :: Subscribers(m, d) == Subscribers(n, d)
  {
  }

  lemma AgreesOfOne<S>(n: Node<S>, m: Node<S>, s: S, c: string)
    requires s in n.socks && Agrees(n, s) && s in m.socks
    requires forall d | d != c :: Subscribers(m, d) == Subscribers(n, d)
    requires m.socks[s].subs - {c} == n.socks[s].subs - {c}
    requires s in Subscribers(m, c) <==> c in m.socks[s].subs
    ensures Agrees(m, s)
  {
    hide Subscribers;
    forall d ensures s in Subscribers(m, d) <==> d in m.socks[s].subs {
      if d != c {
        assert s in Subscribers(n, d) <==> d in n.socks[s].subs;
        assert d in m.socks[s].subs <==> d in m.socks[s].subs - {c};
        assert d in n.socks[s].subs <==> d in n.socks[s].subs - {c};
      }
    }
  }

  // `b` is `n` with channel `c` noted by the socket `s`, and packets.
  lemma BooksOfAdd<S>(cfg: Config, n: Node<S>, b: Node<S>, s: S, c: string)
    requires Books(cfg, n) && s in n.socks && !n.socks[s].gone
    requires c in n.socks[s].subs || |n.socks[s].subs| < cfg.channelLimit
    requires b == n.(socks := b.socks, sent := b.sent) && b.socks.Keys == n.socks.Keys
    requires forall r | r in n.socks && r != s :: StillBooked(n.socks[r], b.socks[r])
    requires b.socks[s].subs == n.socks[s].subs + {c} && !b.socks[s].gone
    ensures Books(cfg, HubAdd(b, s, c))
  {
    hide HubAdd, Subscribers, HubOk, Mirrors, Agrees;
    var m := HubAdd(b, s, c);
    SameHub(n, b);
    AddKeeps(b, s, c);
    assert Agrees(n, s) && SockBooks(cfg, n, s);
    hide Books;
    assert m.socks[s].subs - {c} == n.socks[s].subs - {c};
    AgreesOfOne(n, m, s, c);
    if c in n.socks[s].subs { assert m.socks[s].subs == n.socks[s].subs; }
    BooksOfOne(cfg, n, m, s, c);
  }

  lemma BooksOfRemove<S>(cfg: Config, n: Node<S>, s: S, c: string)
    requires Books(cfg, n) && s in n.socks
    ensures Books(cfg, HubRemove(Put(n, s, n.socks[s].(subs := n.socks[s].subs - {c})), s, c))
  {
    hide HubRemove, Subscribers, HubOk, Mirrors, Agrees;
    var b := Put(n, s, n.socks[s].(subs := n.socks[s].subs - {c}));
    var m := HubRemove(b, s, c);
    SameHub(n, b);
    RemoveKeeps(b, s, c);
    assert Agrees(n, s) && SockBooks(cfg, n, s);
    hide Books;
    assert m.socks[s].subs - {c} == n.socks[s].subs - {c};
    AgreesOfOne(n, m, s, c);
    Shrinks(n.socks[s].subs, c);
    BooksOfOne(cfg, n, m, s, c);
  }

  lemma Shrinks(a: set<string>, c: string)
    ensures |a - {c}| <= |a|
  {
    if c in a { assert |a - {c}| == |a| - 1; } else { assert a - {c} == a; }
  }

  // `b` is `n` with the socket `s` as `t` says, and packets.
  lemma AnnouncedBooked<S>(n: Node<S>, t: Sock<S>, b: Node<S>, s: S, p: Option<Presence>)
    requires s in n.socks && Announced(Put(n, s, t), b, s, p)
    ensures b == n.(socks := b.socks, sent := b.sent) && b.socks.Keys == n.socks.Keys
    ensures forall r | r in n.socks && r != s :: StillBooked(n.socks[r], b.socks[r])
    ensures b.socks[s].subs == t.subs && b.socks[s].gone == t.gone
  {
  }

  lemma AdmitBooks<S>(cfg: Config, n: Node<S>, s: S, token: Token, channel: string)
    requires Books(cfg, n) && Live(n, s)
    requires channel in n.socks[s].subs || |n.socks[s].subs| < cfg.channelLimit
    ensures Books(cfg, Admit(cfg, n, s, token, channel))
  {
    hide NodeFeeds, OnlineEvent, Announce, Books, HubAdd, PresencePublication, Announced, NameOf, SentFor;
    var t := Subscribed(n.socks[s], token, channel);
    var p := OnlineEvent(cfg, token, channel);
    AnnounceFeeds(cfg, Put(n, s, t), s, p);
    AnnouncedBooked(n, t, Announce(cfg, Put(n, s, t), s, p), s, p);
    BooksOfAdd(cfg, n, Announce(cfg, Put(n, s, t), s, p), s, channel);
  }

  lemma SubscribedFeeds<S>(cfg: Config, s: Sock<S>, token: Token, channel: string)
    ensures Feeds(cfg, s, Subscribed(s, token, channel), [])
  {
    SamePacketsFeed(cfg, s, Subscribed(s, token, channel));
  }

  lemma AdmitFeeds<S>(cfg: Config, n: Node<S>, s: S, token: Token, channel: string)
    requires s in n.socks
    ensures
      var m := Admit(cfg, n, s, token, channel);
      var made := PresencePublication(cfg, OnlineEvent(cfg, token, channel));
      && NodeFeeds(cfg, n, m, NameOf(cfg, n, s, made))
      && m.sent == n.sent + SentFor(cfg, n, s, made) && n.commands <= m.commands
  {
    hide NodeFeeds, OnlineEvent, Announce, HubAdd, PresencePublication, Announced, Subscribed, Feeds;
    var a := Put(n, s, Subscribed(n.socks[s], token, channel));
    var p := OnlineEvent(cfg, token, channel);
    var b := Announce(cfg, a, s, p);
    var pub := NameOf(cfg, n, s, PresencePublication(cfg, p));
    SubscribedFeeds(cfg, n.socks[s], token, channel);
    PutFeeds(cfg, n, s, Subscribed(n.socks[s], token, channel));
    AnnounceFeeds(cfg, a, s, p);
    NodeFeedsThen(cfg, n, a, b, pub);
    HubAddKeepsSocks(b, s, channel);
    FeedsBySocks(cfg, n, b, HubAdd(b, s, channel));
    assert b.commands == n.commands by { AnnounceKeepsCommands(cfg, a, s, p); }
  }

  lemma AnnounceKeepsCommands<S>(cfg: Config, n: Node<S>, s: S, p: Option<Presence>)
    requires s in n.socks
    ensures Announce(cfg, n, s, p).commands == n.commands
  {
  }

  lemma AcceptedHandled<S>(cfg: Config, n: Node<S>, s: S, cid: Option<int>, channel: string, batch: bool, token: Token)
    requires Books(cfg, n) && Live(n, s)
    requires SubscribeVerdict(cfg, n.socks[s], channel) == Accepted(token)
    ensures Handled(cfg, n, HandleSubscribe(cfg, n, s, cid, channel, batch), s,
                    PresencePublication(cfg, OnlineEvent(cfg, token, channel)))
  {
    assert channel in n.socks[s].subs || |n.socks[s].subs| < cfg.channelLimit;
    hide Books, Reply, SubscribeVerdict, Admit, OnlineEvent, NodeFeeds, PresencePublication;
    AdmitBooks(cfg, n, s, token, channel);
    AdmitFeeds(cfg, n, s, token, channel);
    var m := Admit(cfg, n, s, token, channel);
    var made := PresencePublication(cfg, OnlineEvent(cfg, token, channel));
    assert Handled(cfg, n, m, s, made);
    hide Handled;
    ReplyHandled(cfg, n, m, s, cid, if batch then Batch else Empty, made);
  }

  lemma SubscribeHandled<S>(cfg: Config, n: Node<S>, s: S, cid: Option<int>, channel: string, batch: bool)
    requires Books(cfg, n) && Live(n, s)
    ensures Handled(cfg, n, HandleSubscribe(cfg, n, s, cid, channel, batch), s,
                    MadeByEvent(cfg, n.socks[s], SubscribeEvent(cid, channel, batch)))
  {
    hide Books, Feeds, Refuse, SubscribeVerdict, PresencePublication, Admit, Reply, OnlineEvent, Handled;
    var v := SubscribeVerdict(cfg, n.socks[s], channel);
    if v.Refused? {
      RefuseFeeds(cfg, n.socks[s], cid, v.error);
      PutHandled(cfg, n, s, Refuse(cfg, n.socks[s], cid, v.error));
    } else {
      AcceptedHandled(cfg, n, s, cid, channel, batch, v.token);
    }
  }

  lemma HubAddKeepsSocks<S>(n: Node<S>, s: S, c: string)
    ensures HubAdd(n, s, c).socks == n.socks && HubAdd(n, s, c).sent == n.sent
    ensures n.commands <= HubAdd(n, s, c).commands
  {
  }

  lemma UnsubscribeHandled<S>(cfg: Config, n: Node<S>, s: S, cid: Option<int>, channel: string)
    requires Books(cfg, n) && Live(n, s)
    ensures Handled(cfg, n, HandleUnsubscribe(cfg, n, s, cid, channel), s, None)
  {
    hide Books, Feeds, Reply, HubRemove, Handled;
    PutHandled(cfg, n, s, n.socks[s]) by { SamePacketsFeed(cfg, n.socks[s], n.socks[s]); }
    assert Put(n, s, n.socks[s]) == n;
    if channel in n.socks[s].subs {
      RemovedHandled(cfg, n, s, channel);
      var a := HubRemove(Put(n, s, n.socks[s].(subs := n.socks[s].subs - {channel})), s, channel);
      assert s in a.socks by { RemoveKeepsSocks(Put(n, s, n.socks[s].(subs := n.socks[s].subs - {channel})), s, channel); }
      ReplyHandled(cfg, n, a, s, cid, Empty, None);
    } else {
      ReplyHandled(cfg, n, n, s, cid, Empty, None);
    }
  }

  lemma RemoveKeepsSocks<S>(n: Node<S>, s: S, c: string)
    ensures HubRemove(n, s, c).socks == n.socks && HubRemove(n, s, c).sent == n.sent
    ensures n.commands <= HubRemove(n, s, c).commands
  {
  }

  lemma RemovedHandled<S>(cfg: Config, n: Node<S>, s: S, c: string)
    requires Books(cfg, n) && Live(n, s)
    ensures Handled(cfg, n, HubRemove(Put(n, s, n.socks[s].(subs := n.socks[s].subs - {c})), s, c), s, None)
  {
    hide Books, Feeds, NodeFeeds, HubRemove, Subscribers;
    var t := n.socks[s].(subs := n.socks[s].subs - {c});
    SamePacketsFeed(cfg, n.socks[s], t);
    BooksOfRemove(cfg, n, s, c);
    PutFeeds(cfg, n, s, t);
    RemoveKeepsSocks(Put(n, s, t), s, c);
    FeedsBySocks(cfg, n, Put(n, s, t), HubRemove(Put(n, s, t), s, c));
    assert n.sent + [] == n.sent;
  }

  lemma PublishHandled<S>(cfg: Config, n: Node<S>, s: S, cid: Option<int>, channel: string, data: string)
    requires Books(cfg, n) && Live(n, s)
    ensures Handled(cfg, n, HandlePublish(cfg, n, s, cid, channel, data), s,
                    MadeByEvent(cfg, n.socks[s], PublishEvent(cid, channel, data)))
  {
    hide Books, Feeds, Reply, NodeFeeds, ServerPublish;
    var t := Reply(cfg, n.socks[s], cid, Empty);
    var a := Put(n, s, t);
    ReplyFeeds(cfg, n.socks[s], cid, Empty);
    PutHandled(cfg, n, s, t);
    assert t.subs == n.socks[s].subs;
    var m := HandlePublish(cfg, n, s, cid, channel, data);
    if MadeByEvent(cfg, n.socks[s], PublishEvent(cid, channel, data)).Some? {
      ServerPublishFeeds(cfg, a, s, channel, data);
      NodeFeedsThen(cfg, n, a, m, [PubOf(cfg, n, s)]);
      FannedBooks(cfg, a, m);
    }
  }

  lemma FannedBooks<S>(cfg: Config, n: Node<S>, m: Node<S>)
    requires Books(cfg, n) && Fanned(n, m)
    ensures Books(cfg, m)
  {
    BooksOfSame(cfg, n, m);
  }

  lemma CloseFeeds<S>(cfg: Config, s: Sock<S>, t: Sock<S>)
    requires t == s.(closed := true, gone := t.gone, subs := t.subs)
    ensures Feeds(cfg, s, t, [])
  {
  }

  lemma AloneFeeds<S>(cfg: Config, s: Sock<S>, ev: Event, now: int)
    ensures SameBooks(s, HandleAlone(cfg, s, ev, now)) && Feeds(cfg, s, HandleAlone(cfg, s, ev, now), [])
  {
    hide Feeds, Reply, Refuse, HandleHandshake, HandleAuthenticate, HandleLogin;
    SamePacketsFeed(cfg, s, s);
    match ev
    case Handshake(cid, auth) => HandshakeFeeds(cfg, s, cid, auth, now);
    case LoginEvent(cid, request) => LoginFeeds(cfg, s, cid, request, now);
    case Authenticate(cid, signed) => AuthenticateFeeds(cfg, s, cid, signed, now);
    case RemoveAuthToken(cid) =>
      var t := SetToken(s, None);
      SamePacketsFeed(cfg, s, t);
      ReplyFeeds(cfg, t, cid, Empty);
      FeedsThen(cfg, s, t, Reply(cfg, t, cid, Empty), []);
    case Disconnect => CloseFeeds(cfg, s, CloseWith(s));
    case Unknown(cid, _) => RefuseFeeds(cfg, s, cid, "UnknownEventError");
    case _ =>
  }

  // Whatever the client sends, the books agree again, each socket has what it was
  // offered, and at most one publication is made: fanned out here and sent to Redis.
  lemma EventHandled<S>(cfg: Config, n: Node<S>, s: S, ev: Event, now: int)
    requires Books(cfg, n) && Live(n, s)
    ensures Handled(cfg, n, Handle(cfg, n, s, ev, now), s, MadeByEvent(cfg, n.socks[s], ev))
  {
    hide Books, Feeds, HandleAlone, HandleSubscribe, HandleUnsubscribe, HandlePublish, SubscribeVerdict, OnlineEvent,
      PresencePublication, Handled;
    match ev
    case SubscribeEvent(cid, channel, batch) => SubscribeHandled(cfg, n, s, cid, channel, batch);
    case UnsubscribeEvent(cid, channel) => UnsubscribeHandled(cfg, n, s, cid, channel);
    case PublishEvent(cid, channel, data) => PublishHandled(cfg, n, s, cid, channel, data);
    case _ =>
      AloneFeeds(cfg, n.socks[s], ev, now);
      PutHandled(cfg, n, s, HandleAlone(cfg, n.socks[s], ev, now));
  }

  // ---- leaving -------------------------------------------------------------

  ghost predicate Enumerates(channels: seq<string>, subs: set<string>) { forall c :: c in channels <==> c in subs }

  // The books with every trace of `s` gone but its closed record.
  lemma BooksOfGone<S>(cfg: Config, n: Node<S>, m: Node<S>, s: S)
    requires Books(cfg, n) && s in n.socks
    requires HubOk(m) && Mirrors(m)
    requires m.registered == n.registered - {s} && m.socks.Keys == n.socks.Keys
    requires forall r | r in n.socks && r != s :: StillBooked(n.socks[r], m.socks[r])
    requires m.socks[s].gone && m.socks[s].closed && m.socks[s].subs == {}
    requires forall d :: Subscribers(m, d) == if d in n.socks[s].subs then Subscribers(n, d) - {s} else Subscribers(n, d)
    ensures Books(cfg, m)
  {
    hide Subscribers, HubOk, Mirrors;
    assert Agrees(n, s);
    forall r | r in m.socks ensures SockBooks(cfg, m, r) && Agrees(m, r) {
      assert SockBooks(cfg, n, r) && Agrees(n, r);
      forall d ensures r in Subscribers(m, d) <==> d in m.socks[r].subs {
        assert r in Subscribers(n, d) <==> d in n.socks[r].subs;
        assert s in Subscribers(n, d) <==> d in n.socks[s].subs;
      }
    }
    forall d ensures Subscribers(m, d) <= m.socks.Keys {
      assert Subscribers(n, d) <= n.socks.Keys;
    }
  }

  // Cleanup up to the last announcement.
  lemma LeavingFeeds<S>(cfg: Config, n: Node<S>, s: S, channels: seq<string>)
    requires HubOk(n) && s in n.socks
    ensures
      var a := Put(n, s, n.socks[s].(subs := {})).(registered := n.registered - {s});
      var b := RemoveAll(a, s, channels);
      && NodeFeeds(cfg, n, b, []) && b.sent == n.sent && b.socks == a.socks && b.registered == a.registered
      && HubOk(b) && (Mirrors(n) ==> Mirrors(b)) && n.commands <= b.commands
      && forall d :: Subscribers(b, d) == if d in channels then Subscribers(n, d) - {s} else Subscribers(n, d)
  {
    hide Feeds, NodeFeeds, HubOk, Mirrors, Subscribers, RemoveAll;
    var t := n.socks[s].(subs := {});
    var a := Put(n, s, t).(registered := n.registered - {s});
    SamePacketsFeed(cfg, n.socks[s], t);
    PutFeeds(cfg, n, s, t);
    SameHub(n, a);
    RemoveAllKeeps(a, s, channels);
    FeedsBySocks(cfg, n, Put(n, s, t), RemoveAll(a, s, channels));
  }

  lemma LastPut<S>(cfg: Config, n: Node<S>, s: S)
    requires s in n.socks
    ensures var m := Put(n, s, n.socks[s].(closed := true, gone := true));
      NodeFeeds(cfg, n, m, [])
  {
    CloseFeeds(cfg, n.socks[s], n.socks[s].(closed := true, gone := true));
    PutFeeds(cfg, n, s, n.socks[s].(closed := true, gone := true));
  }

  lemma LeaveHandled<S>(cfg: Config, n: Node<S>, s: S, channels: seq<string>)
    requires Books(cfg, n) && Live(n, s) && Enumerates(channels, n.socks[s].subs)
    ensures Handled(cfg, n, Cleanup(cfg, n, s, channels), s,
                    PresencePublication(cfg, OfflineEvent(cfg, n.socks[s].token)))
  {
    assert HubOk(n) && Mirrors(n);
    hide NodeFeeds, HubOk, Mirrors, Subscribers, RemoveAll, Announce, OfflineEvent, PresencePublication, Books;
    LeavingFeeds(cfg, n, s, channels);
    var a := Put(n, s, n.socks[s].(subs := {})).(registered := n.registered - {s});
    var b := RemoveAll(a, s, channels);
    var p := OfflineEvent(cfg, n.socks[s].token);
    var c := Announce(cfg, b, s, p);
    AnnounceFeeds(cfg, b, s, p);
    LeftBooks(cfg, n, b, c, s, channels, p);
    hide Announced;
    LastPut(cfg, c, s);
    NodeFeedsThen(cfg, n, b, c, NameOf(cfg, n, s, PresencePublication(cfg, p)));
    NodeFeedsThen(cfg, n, c, Cleanup(cfg, n, s, channels), NameOf(cfg, n, s, PresencePublication(cfg, p)));
  }

  lemma LeftBooks<S>(cfg: Config, n: Node<S>, b: Node<S>, c: Node<S>, s: S, channels: seq<string>, p: Option<Presence>)
    requires Books(cfg, n) && s in n.socks && Enumerates(channels, n.socks[s].subs)
    requires b.socks == n.socks[s := n.socks[s].(subs := {})] && b.registered == n.registered - {s}
    requires HubOk(b) && Mirrors(b) && Announced(b, c, s, p)
    requires forall d :: Subscribers(b, d) == if d in channels then Subscribers(n, d) - {s} else Subscribers(n, d)
    ensures
      var d := Put(c, s, c.socks[s].(closed := true, gone := true));
      Books(cfg, d) && d.sent == c.sent && d.commands == b.commands && d.socks.Keys == n.socks.Keys
  {
    hide HubOk, Mirrors, Subscribers, Books;
    var d := Put(c, s, c.socks[s].(closed := true, gone := true));
    SameHub(b, d);
    BooksOfGone(cfg, n, d, s);
  }

  // ---- steps and runs ------------------------------------------------------

  function StepPub<S>(cfg: Config, n: Node<S>, step: Step<S>): seq<PubId<S>> {
    match step
    case Receive(s, _, _) => NameOf(cfg, n, s, Made(cfg, n, step))
    case Leave(s, _) => NameOf(cfg, n, s, Made(cfg, n, step))
    case Deliver(_, _, pub) => [pub]
    case _ => []
  }

  function StepSent<S>(cfg: Config, n: Node<S>, step: Step<S>): seq<Message<S>> {
    match step
    case Receive(s, _, _) => SentFor(cfg, n, s, Made(cfg, n, step))
    case Leave(s, _) => SentFor(cfg, n, s, Made(cfg, n, step))
    case _ => []
  }

  ghost predicate Stepped<S>(cfg: Config, n: Node<S>, m: Node<S>, step: Step<S>) {
    && Books(cfg, m)
    && NodeFeeds(cfg, n, m, StepPub(cfg, n, step))
    && (forall s | s in m.socks && s !in n.socks :: m.socks[s] == NewSock())
    && m.sent == n.sent + StepSent(cfg, n, step)
    && n.commands <= m.commands
  }

  lemma PacketFeeds<S>(cfg: Config, n: Node<S>, step: Step<S>)
    requires Enabled(n, step) && (step.ReceivePing? || step.Tick? || step.Write? || step.WriteFails?)
    ensures var t := Next(cfg, n, step).socks[step.s];
      SameBooks(n.socks[step.s], t) && Feeds(cfg, n.socks[step.s], t, []) && Next(cfg, n, step) == Put(n, step.s, t)
  {
    hide Pubs;
    var s := n.socks[step.s];
    if step.ReceivePing? { EnqueueFeeds(cfg, s, Pong); }
    if step.Tick? { EnqueueFeeds(cfg, s, Ping); }
    if step.Write? {
      assert s.written + s.queue == (s.written + [s.queue[0]]) + s.queue[1..];
    }
  }

  lemma ConnectBooks<S>(cfg: Config, n: Node<S>, s: S)
    requires Books(cfg, n) && s !in n.socks
    ensures Books(cfg, Next(cfg, n, Connect(s)))
  {
    hide Subscribers, HubOk, Mirrors;
    var m := Next(cfg, n, Connect(s));
    SameHub(n, m);
    forall r | r in m.socks ensures SockBooks(cfg, m, r) && Agrees(m, r) {
      if r in n.socks { assert SockBooks(cfg, n, r) && Agrees(n, r); }
      if r == s {
        forall d ensures s !in Subscribers(m, d) { assert Subscribers(n, d) <= n.socks.Keys; }
      }
    }
  }

  lemma ConnectStepped<S>(cfg: Config, n: Node<S>, s: S)
    requires Books(cfg, n) && s !in n.socks
    ensures Stepped(cfg, n, Next(cfg, n, Connect(s)), Connect(s))
  {
    ConnectBooks(cfg, n, s);
    hide Books, Feeds;
    var m := Next(cfg, n, Connect(s));
    forall r | r in n.socks ensures Feeds(cfg, n.socks[r], m.socks[r], []) { SamePacketsFeed(cfg, n.socks[r], m.socks[r]); }
    assert n.sent + [] == n.sent;
  }

  lemma HandledStepped<S>(cfg: Config, n: Node<S>, m: Node<S>, s: S, p: Option<Publication>, step: Step<S>)
    requires Handled(cfg, n, m, s, p)
    requires StepPub(cfg, n, step) == NameOf(cfg, n, s, p) && StepSent(cfg, n, step) == SentFor(cfg, n, s, p)
    ensures Stepped(cfg, n, m, step)
  {
  }

  lemma StepKeeps<S>(cfg: Config, n: Node<S>, step: Step<S>)
    requires Books(cfg, n) && Enabled(n, step)
    ensures Stepped(cfg, n, Next(cfg, n, step), step)
  {
    hide Books, Feeds, NodeFeeds, Handle, Cleanup, PublishLocal, MadeByEvent, PresencePublication, OfflineEvent, Handled, Stepped;
    var m := Next(cfg, n, step);
    match step
    case Connect(s) => ConnectStepped(cfg, n, s);
    case Receive(s, ev, now) =>
      EventHandled(cfg, n, s, ev, now);
      HandledStepped(cfg, n, m, s, MadeByEvent(cfg, n.socks[s], ev), step);
    case Leave(s, channels) =>
      LeaveHandled(cfg, n, s, channels);
      HandledStepped(cfg, n, m, s, PresencePublication(cfg, OfflineEvent(cfg, n.socks[s].token)), step);
    case Deliver(channel, data, pub) => DeliverStepped(cfg, n, channel, data, pub);
    case Close(s) =>
      CloseFeeds(cfg, n.socks[s], CloseWith(n.socks[s]));
      PutHandled(cfg, n, s, CloseWith(n.socks[s]));
      HandledStepped(cfg, n, m, s, None, step);
    case _ =>
      PacketFeeds(cfg, n, step);
      PutHandled(cfg, n, step.s, m.socks[step.s]);
      HandledStepped(cfg, n, m, step.s, None, step);
  }

  lemma DeliverStepped<S>(cfg: Config, n: Node<S>, channel: string, data: string, pub: PubId<S>)
    requires Books(cfg, n)
    ensures Stepped(cfg, n, Next(cfg, n, Deliver(channel, data, pub)), Deliver(channel, data, pub))
  {
    hide NodeFeeds, Books, SameButPackets;
    var m := Next(cfg, n, Deliver(channel, data, pub));
    PublishLocalFeeds(cfg, n, channel, data, pub);
    FannedBooks(cfg, n, m);
    assert n.sent + [] == n.sent;
  }

  // Every socket of the node is sound.
  ghost predicate Flows<S>(cfg: Config, n: Node<S>) { forall s | s in n.socks :: Flow(cfg, n.socks[s]) }

  ghost predicate Possible<S>(cfg: Config, n: Node<S>, steps: seq<Step<S>>)
    decreases |steps|
  {
    steps == [] || (Enabled(n, steps[0]) && Possible(cfg, Next(cfg, n, steps[0]), steps[1..]))
  }

  ghost function Run<S>(cfg: Config, n: Node<S>, steps: seq<Step<S>>): Node<S>
    requires Possible(cfg, n, steps)
    decreases |steps|
  {
    if steps == [] then n else Run(cfg, Next(cfg, n, steps[0]), steps[1..])
  }

  lemma StepFlows<S>(cfg: Config, n: Node<S>, m: Node<S>, step: Step<S>)
    requires Flows(cfg, n) && Stepped(cfg, n, m, step)
    ensures Flows(cfg, m)
  {
    hide Books;
    forall s | s in m.socks ensures Flow(cfg, m.socks[s]) {
      if s in n.socks { assert Feeds(cfg, n.socks[s], m.socks[s], StepPub(cfg, n, step)); }
    }
  }

  lemma {:induction false} RunFrom<S>(cfg: Config, n: Node<S>, steps: seq<Step<S>>)
    requires Books(cfg, n) && Flows(cfg, n) && Possible(cfg, n, steps)
    ensures Books(cfg, Run(cfg, n, steps)) && Flows(cfg, Run(cfg, n, steps))
    decreases |steps|
  {
    if steps != [] {
      hide Books, Flows, Next;
      var m := Next(cfg, n, steps[0]);
      StepKeeps(cfg, n, steps[0]);
      assert Stepped(cfg, n, m, steps[0]);
      StepFlows(cfg, n, m, steps[0]);
      RunFrom(cfg, m, steps[1..]);
    }
  }

  // After every run the books agree, and on every open socket what was written and
  // what is queued is exactly what was offered, within the size of the queue.
  lemma BooksAndFlows<S>(cfg: Config, steps: seq<Step<S>>)
    requires Possible(cfg, NewNode<S>(), steps)
    ensures Books(cfg, Run(cfg, NewNode<S>(), steps)) && Flows(cfg, Run(cfg, NewNode<S>(), steps))
  {
    RunFrom(cfg, NewNode<S>(), steps);
  }

  // Closed is final: from there on nothing is accepted and nothing is written.
  lemma {:induction false} ClosedIsFinal<S>(cfg: Config, n: Node<S>, steps: seq<Step<S>>, s: S)
    requires Books(cfg, n) && Possible(cfg, n, steps) && s in n.socks && n.socks[s].closed
    ensures var m := Run(cfg, n, steps);
      && s in m.socks && m.socks[s].closed
      && m.socks[s].offered == n.socks[s].offered && m.socks[s].written == n.socks[s].written
    decreases |steps|
  {
    if steps != [] {
      hide Books, Next;
      var m := Next(cfg, n, steps[0]);
      StepKeeps(cfg, n, steps[0]);
      assert Feeds(cfg, n.socks[s], m.socks[s], StepPub(cfg, n, steps[0]));
      ClosedIsFinal(cfg, m, steps[1..], s);
    }
  }
}
