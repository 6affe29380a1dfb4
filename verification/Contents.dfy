// What publications say: the channel and data of each packet that a socket is offered,
// and of each message that a node sends, are those of the event that made it.
module Contents {
  import opened Prelude
  import opened Auth
  import opened Node
  import opened NodeRuns
  import opened Cluster
  import RedisWire

  // ---- local sockets -------------------------------------------------------

  // A publication as local sockets get it.
  function Meant<S>(p: Option<Publication>, pub: PubId<S>): Option<Packet<S>> {
    if p.None? then None
    else Some(PublishPacket(p.value.channel, RedisWire.Local(p.value.data), pub))
  }

  predicate IsData(json: RedisWire.Json, data: string) { data == "" || json.valid(data) }

  // A publication is the last packet offered to every open subscriber, and nobody else
  // is offered anything. What is no JSON is offered to nobody.
  lemma PublishOffers<S>(cfg: Config, n: Node<S>, source: S, channel: string, data: string, r: S)
    requires r in n.socks
    ensures var m := ServerPublish(cfg, n, source, channel, data);
      && r in m.socks
      && m.socks[r].offered ==
           if r in Subscribers(n, channel) && !n.socks[r].closed && IsData(cfg.json, data)
           then n.socks[r].offered + [PublishPacket(channel, if data == "" then "null" else data, PubId(cfg.instanceID, Some(source), |n.sent|))]
           else n.socks[r].offered
  {
    hide Subscribers;
  }

  // Of the packets that `t` was offered and `s` was not, a publication can only be `w`.
  ghost predicate Adds<S>(s: Sock<S>, t: Sock<S>, w: Option<Packet<S>>) {
    && s.offered <= t.offered
    && forall i | |s.offered| <= i < |t.offered| && t.offered[i].PublishPacket? :: w == Some(t.offered[i])
  }

  lemma AddsThen<S>(a: Sock<S>, b: Sock<S>, c: Sock<S>, w: Option<Packet<S>>)
    requires Adds(a, b, w) && Adds(b, c, w)
    ensures Adds(a, c, w)
  {
    forall i | |a.offered| <= i < |c.offered| && c.offered[i].PublishPacket? ensures w == Some(c.offered[i]) {
      if i < |b.offered| { assert b.offered[i] == c.offered[i]; }
    }
  }

  lemma AddsNothing<S>(s: Sock<S>, t: Sock<S>, w: Option<Packet<S>>)
    requires t.offered == s.offered
    ensures Adds(s, t, w)
  {
  }

  lemma EnqueueAdds<S>(cfg: Config, s: Sock<S>, p: Packet<S>, w: Option<Packet<S>>)
    requires p.PublishPacket? ==> w == Some(p)
    ensures Adds(s, Enqueue(cfg, s, p), w)
  {
  }

  lemma ReplyAdds<S>(cfg: Config, s: Sock<S>, cid: Option<int>, body: Body, w: Option<Packet<S>>)
    ensures Adds(s, Reply(cfg, s, cid, body), w)
  {
    if cid.Some? { EnqueueAdds(cfg, s, Response(cid.value, body), w); }
  }

  lemma RefuseAdds<S>(cfg: Config, s: Sock<S>, cid: Option<int>, name: string, w: Option<Packet<S>>)
    ensures Adds(s, Refuse(cfg, s, cid, name), w)
  {
    if cid.Some? { EnqueueAdds(cfg, s, ErrorResponse(cid.value, name), w); }
  }

  lemma LoginAdds<S>(cfg: Config, s: Sock<S>, cid: Option<int>, r: LoginRequest, now: int, w: Option<Packet<S>>)
    ensures Adds(s, HandleLogin(cfg, s, cid, r, now), w)
  {
    hide LoginResult, Reply, Refuse, Enqueue, Adds;
    match LoginResult(cfg, r, now)
    case None => RefuseAdds(cfg, s, cid, "LoginFailedError", w);
    case Some((token, signed)) =>
      var t := Reply(cfg, s, cid, Empty);
      var u := SetToken(t, Some(token)).(callID := t.callID + 1);
      ReplyAdds(cfg, s, cid, Empty, w);
      AddsNothing(t, u, w);
      AddsThen(s, t, u, w);
      EnqueueAdds(cfg, u, SetAuthToken(signed, u.callID), w);
      AddsThen(s, u, HandleLogin(cfg, s, cid, r, now), w);
  }

  // The socket answers, after a change of its token.
  lemma AnswerAdds<S>(cfg: Config, s: Sock<S>, t: Sock<S>, cid: Option<int>, body: Body, w: Option<Packet<S>>)
    requires t.offered == s.offered
    ensures Adds(s, Reply(cfg, t, cid, body), w)
  {
    AddsNothing(s, t, w);
    ReplyAdds(cfg, t, cid, body, w);
    hide Adds, Reply;
    AddsThen(s, t, Reply(cfg, t, cid, body), w);
  }

  lemma AloneAdds<S>(cfg: Config, s: Sock<S>, ev: Event, now: int, w: Option<Packet<S>>)
    ensures Adds(s, HandleAlone(cfg, s, ev, now), w)
  {
    hide LoginResult, Reply, Refuse, Adds, HandleLogin, VerifyToken;
    match ev
    case Handshake(cid, auth) =>
      var v := if auth.Some? then VerifyToken(auth.value, now) else Invalid;
      var t := AfterVerify(s, v).(handshaken := true);
      AnswerAdds(cfg, s, t, cid, Status(t.authed, if auth.Some? && !v.Valid? then Some(ErrorName(v)) else None), w);
    case LoginEvent(cid, request) => LoginAdds(cfg, s, cid, request, now, w);
    case Authenticate(cid, signed) =>
      if signed.None? {
        ReplyAdds(cfg, s, cid, Status(s.authed, None), w);
      } else {
        var v := VerifyToken(signed.value, now);
        var t := AfterVerify(s, v);
        AnswerAdds(cfg, s, t, cid, Status(t.authed, if v.Valid? then None else Some(ErrorName(v))), w);
      }
    case RemoveAuthToken(cid) => AnswerAdds(cfg, s, SetToken(s, None), cid, Empty, w);
    case Unknown(cid, _) => RefuseAdds(cfg, s, cid, "UnknownEventError", w);
    case _ => AddsNothing(s, HandleAlone(cfg, s, ev, now), w);
  }

  lemma PublishLocalAdds<S>(cfg: Config, n: Node<S>, p: Publication, pub: PubId<S>, r: S)
    requires r in n.socks
    ensures Adds(n.socks[r], PublishLocal(cfg, n, p.channel, p.data, pub).socks[r], Meant(Some(p), pub))
  {
    hide Enqueue, Adds;
    var w := Meant(Some(p), pub);
    AddsNothing(n.socks[r], n.socks[r], w);
    EnqueueAdds(cfg, n.socks[r], w.value, w);
  }

  lemma AnnounceAdds<S>(cfg: Config, n: Node<S>, s: S, p: Option<Presence>, r: S)
    requires s in n.socks && r in n.socks
    ensures Adds(n.socks[r], Announce(cfg, n, s, p).socks[r], Meant(PresencePublication(cfg, p), PubOf(cfg, n, s)))
  {
    hide Adds, PresenceText, PublishLocal;
    var w := Meant(PresencePublication(cfg, p), PubOf(cfg, n, s));
    AddsNothing(n.socks[r], n.socks[r], w);
    if p.Some? {
      var a := Put(n, s, n.socks[s].(announced := n.socks[s].announced + [p.value]));
      AddsNothing(n.socks[r], a.socks[r], w);
      PublishLocalAdds(cfg, a, Publication(p.value.channel, PresenceText(cfg, p.value)), PubOf(cfg, a, s), r);
      AddsThen(n.socks[r], a.socks[r], Announce(cfg, n, s, p).socks[r], w);
    }
  }

  lemma PutReplyAdds<S>(cfg: Config, n: Node<S>, s: S, cid: Option<int>, body: Body, r: S, w: Option<Packet<S>>)
    requires s in n.socks && r in n.socks
    ensures Adds(n.socks[r], Put(n, s, Reply(cfg, n.socks[s], cid, body)).socks[r], w)
  {
    hide Adds, Reply;
    if r == s { ReplyAdds(cfg, n.socks[s], cid, body, w); } else { AddsNothing(n.socks[r], n.socks[r], w); }
  }

  lemma SubscribeAdds<S>(cfg: Config, n: Node<S>, s: S, cid: Option<int>, channel: string, batch: bool, r: S)
    requires s in n.socks && r in n.socks
    ensures r in HandleSubscribe(cfg, n, s, cid, channel, batch).socks
    ensures Adds(n.socks[r], HandleSubscribe(cfg, n, s, cid, channel, batch).socks[r],
                 Meant(MadeByEvent(cfg, n.socks[s], SubscribeEvent(cid, channel, batch)), PubOf(cfg, n, s)))
  {
    hide Adds, Announce, HubAdd, OnlineEvent, SubscribeVerdict, Reply, Subscribed, Refuse, PresencePublication, Meant;
    var v := SubscribeVerdict(cfg, n.socks[s], channel);
    var w := Meant(MadeByEvent(cfg, n.socks[s], SubscribeEvent(cid, channel, batch)), PubOf(cfg, n, s));
    AddsNothing(n.socks[r], n.socks[r], w);
    if v.Refused? {
      RefuseAdds(cfg, n.socks[s], cid, v.error, w);
    } else {
      var p := OnlineEvent(cfg, v.token, channel);
      var a := Put(n, s, Subscribed(n.socks[s], v.token, channel));
      SubscribedOffers(n.socks[s], v.token, channel);
      AddsNothing(n.socks[r], a.socks[r], w);
      AnnounceAdds(cfg, a, s, p, r);
      HubAddKeepsSocks(Announce(cfg, a, s, p), s, channel);
      var m := Admit(cfg, n, s, v.token, channel);
      AddsThen(n.socks[r], a.socks[r], m.socks[r], w);
      var body := if batch then Batch else Empty;
      PutReplyAdds(cfg, m, s, cid, body, r, w);
      AddsThen(n.socks[r], m.socks[r], Put(m, s, Reply(cfg, m.socks[s], cid, body)).socks[r], w);
    }
  }

  lemma SubscribedOffers<S>(s: Sock<S>, token: Token, channel: string)
    ensures Subscribed(s, token, channel).offered == s.offered
  {
  }

  lemma UnsubscribeAdds<S>(cfg: Config, n: Node<S>, s: S, cid: Option<int>, channel: string, r: S, w: Option<Packet<S>>)
    requires s in n.socks && r in n.socks
    ensures r in HandleUnsubscribe(cfg, n, s, cid, channel).socks
    ensures Adds(n.socks[r], HandleUnsubscribe(cfg, n, s, cid, channel).socks[r], w)
  {
    hide Adds, HubRemove, Reply;
    AddsNothing(n.socks[r], n.socks[r], w);
    if channel != "" {
      var b := Put(n, s, n.socks[s].(subs := n.socks[s].subs - {channel}));
      var a := if channel in n.socks[s].subs then HubRemove(b, s, channel) else n;
      RemoveKeepsSocks(b, s, channel);
      assert a.socks.Keys == n.socks.Keys;
      AddsNothing(n.socks[r], a.socks[r], w);
      PutReplyAdds(cfg, a, s, cid, Empty, r, w);
      AddsThen(n.socks[r], a.socks[r], Put(a, s, Reply(cfg, a.socks[s], cid, Empty)).socks[r], w);
    }
  }

  lemma PublishAdds<S>(cfg: Config, n: Node<S>, s: S, cid: Option<int>, channel: string, data: string, r: S)
    requires s in n.socks && r in n.socks
    ensures r in HandlePublish(cfg, n, s, cid, channel, data).socks
    ensures Adds(n.socks[r], HandlePublish(cfg, n, s, cid, channel, data).socks[r],
                 Meant(MadeByEvent(cfg, n.socks[s], PublishEvent(cid, channel, data)), PubOf(cfg, n, s)))
  {
    hide Adds, PublishLocal, Reply, Meant;
    var w := Meant(MadeByEvent(cfg, n.socks[s], PublishEvent(cid, channel, data)), PubOf(cfg, n, s));
    var a := Put(n, s, Reply(cfg, n.socks[s], cid, Empty));
    ReplyFeeds(cfg, n.socks[s], cid, Empty);
    PutReplyAdds(cfg, n, s, cid, Empty, r, w);
    if MadeByEvent(cfg, n.socks[s], PublishEvent(cid, channel, data)).Some? {
      PublishLocalAdds(cfg, a, Publication(channel, data), PubOf(cfg, a, s), r);
      AddsThen(n.socks[r], a.socks[r], HandlePublish(cfg, n, s, cid, channel, data).socks[r], w);
    }
  }

  lemma LeaveAdds<S>(cfg: Config, n: Node<S>, s: S, channels: seq<string>, r: S)
    requires s in n.socks && r in n.socks
    ensures r in Cleanup(cfg, n, s, channels).socks
    ensures Adds(n.socks[r], Cleanup(cfg, n, s, channels).socks[r],
                 Meant(PresencePublication(cfg, OfflineEvent(cfg, n.socks[s].token)), PubOf(cfg, n, s)))
  {
    hide Adds, Announce, RemoveAll, OfflineEvent, PresencePublication, Meant;
    var p := OfflineEvent(cfg, n.socks[s].token);
    var w := Meant(PresencePublication(cfg, p), PubOf(cfg, n, s));
    var a := Put(n, s, n.socks[s].(subs := {})).(registered := n.registered - {s});
    var b := RemoveAll(a, s, channels);
    RemoveAllSent(a, s, channels);
    AddsNothing(n.socks[r], b.socks[r], w);
    AnnounceAdds(cfg, b, s, p, r);
    var c := Announce(cfg, b, s, p);
    AddsThen(n.socks[r], b.socks[r], c.socks[r], w);
    AddsNothing(c.socks[r], Cleanup(cfg, n, s, channels).socks[r], w);
    AddsThen(n.socks[r], c.socks[r], Cleanup(cfg, n, s, channels).socks[r], w);
  }

  lemma {:induction false} RemoveAllSent<S>(n: Node<S>, s: S, channels: seq<string>)
    ensures RemoveAll(n, s, channels).sent == n.sent
    decreases |channels|
  {
    hide HubRemove;
    if channels != [] {
      RemoveKeepsSocks(n, s, channels[0]);
      RemoveAllSent(HubRemove(n, s, channels[0]), s, channels[1..]);
    }
  }

  // The one publication that a step can offer.
  function StepMeans<S>(cfg: Config, n: Node<S>, step: Step<S>): Option<Packet<S>> {
    match step
    case Deliver(channel, data, pub) => Meant(Some(Publication(channel, data)), pub)
    case Receive(s, _, _) => Meant(Made(cfg, n, step), PubOf(cfg, n, s))
    case Leave(s, _) => Meant(Made(cfg, n, step), PubOf(cfg, n, s))
    case _ => None
  }

  // Whatever a step offers to whomever: a publication among it is that of the step,
  // with its channel and its data.
  lemma StepAdds<S>(cfg: Config, n: Node<S>, step: Step<S>, r: S)
    requires Enabled(n, step) && r in n.socks
    ensures r in Next(cfg, n, step).socks
    ensures Adds(n.socks[r], Next(cfg, n, step).socks[r], StepMeans(cfg, n, step))
  {
    hide Adds, HandleSubscribe, HandleUnsubscribe, HandlePublish, HandleAlone, Cleanup, PublishLocal, Enqueue, MadeByEvent,
      PresencePublication, Meant, OfflineEvent;
    var w := StepMeans(cfg, n, step);
    AddsNothing(n.socks[r], n.socks[r], w);
    match step
    case Receive(s, ev, now) =>
      match ev {
        case SubscribeEvent(cid, channel, batch) => SubscribeAdds(cfg, n, s, cid, channel, batch, r);
        case UnsubscribeEvent(cid, channel) => UnsubscribeAdds(cfg, n, s, cid, channel, r, w);
        case PublishEvent(cid, channel, data) => PublishAdds(cfg, n, s, cid, channel, data, r);
        case _ => AloneAdds(cfg, n.socks[s], ev, now, w);
      }
    case Leave(s, channels) => LeaveAdds(cfg, n, s, channels, r);
    case Deliver(channel, data, pub) => PublishLocalAdds(cfg, n, Publication(channel, data), pub, r);
    case ReceivePing(s) => EnqueueAdds(cfg, n.socks[s], Pong, w);
    case Tick(s) => EnqueueAdds(cfg, n.socks[s], Ping, w);
    case Close(s) => AddsNothing(n.socks[s], CloseWith(n.socks[s]), w);
    case Write(s) => AddsNothing(n.socks[s], Written(n.socks[s]), w);
    case WriteFails(s) => AddsNothing(n.socks[s], Lost(n.socks[s]), w);
    case Connect(s) =>
  }

  // ---- messages ------------------------------------------------------------

  // The message is about this channel, and every node but the sender makes of it the
  // data delivered.
  ghost predicate Carries<S>(cfg: Config, msg: Message<S>, channel: string, data: string) {
    && msg.channel == channel && msg.data == data
    && forall receiver | RedisWire.Readable(cfg.instanceID) && receiver != cfg.instanceID ::
         RedisWire.Decode(cfg.json, receiver, msg.raw) == Some(RedisWire.Delivered(cfg.json, data))
  }

  // Just one message was sent: with this channel and data, under the next name of the
  // node.
  ghost predicate SendsOne<S>(cfg: Config, n: Node<S>, m: Node<S>, source: S, channel: string, data: string) {
    && |m.sent| == |n.sent| + 1 && m.sent[..|n.sent|] == n.sent
    && Carries(cfg, m.sent[|n.sent|], channel, data)
    && m.sent[|n.sent|].pub == PubId(cfg.instanceID, Some(source), |n.sent|)
  }

  lemma MessageCarries<S>(cfg: Config, source: S, channel: string, data: string, serial: nat)
    ensures Carries(cfg, MessageOf(cfg, source, channel, data, serial), channel, data)
  {
    hide RedisWire.Decode, RedisWire.EncodeForRedis, RedisWire.Delivered, RedisWire.Readable;
    forall receiver | RedisWire.Readable(cfg.instanceID) && receiver != cfg.instanceID
      ensures RedisWire.Decode(cfg.json, receiver, MessageOf(cfg, source, channel, data, serial).raw)
           == Some(RedisWire.Delivered(cfg.json, data))
    {
      RedisWire.OtherNodeDelivers(cfg.json, cfg.instanceID, receiver, data);
    }
  }

  lemma SentForSends<S>(cfg: Config, n: Node<S>, m: Node<S>, s: S, p: Publication)
    requires m.sent == n.sent + SentFor(cfg, n, s, Some(p))
    ensures SendsOne(cfg, n, m, s, p.channel, p.data)
  {
    MessageCarries(cfg, s, p.channel, p.data, |n.sent|);
    hide Carries;
  }

  // A client's publication is sent to Redis, on its channel and with its data, exactly
  // if the configuration lets it; else nothing is.
  lemma PublishSends<S>(cfg: Config, n: Node<S>, s: S, cid: Option<int>, channel: string, data: string, now: int)
    requires Books(cfg, n) && Live(n, s)
    ensures
      var m := Next(cfg, n, Receive(s, PublishEvent(cid, channel, data), now));
      if channel != "" && cfg.allowClientPublish && (!cfg.restrictClientPublish || channel in n.socks[s].subs)
      then SendsOne(cfg, n, m, s, channel, data)
      else m.sent == n.sent
  {
    hide Books, HandlePublish, SendsOne;
    var ev := PublishEvent(cid, channel, data);
    EventHandled(cfg, n, s, ev, now);
    hide SentFor;
    if MadeByEvent(cfg, n.socks[s], ev).Some? {
      SentForSends(cfg, n, Next(cfg, n, Receive(s, ev, now)), s, Publication(channel, data));
    } else {
      NothingSent(cfg, n, s);
    }
  }

  lemma NothingSent<S>(cfg: Config, n: Node<S>, s: S)
    ensures n.sent + SentFor(cfg, n, s, None) == n.sent
  {
    assert n.sent + [] == n.sent;
  }

  // The publication of a client is the last packet offered to every subscriber that is
  // open afterwards, the publisher among them.
  lemma PublishShows<S>(cfg: Config, n: Node<S>, s: S, cid: Option<int>, channel: string, data: string, now: int, r: S)
    requires Live(n, s) && r in n.socks && r in Subscribers(n, channel) && IsData(cfg.json, data)
    requires channel != "" && cfg.allowClientPublish && (!cfg.restrictClientPublish || channel in n.socks[s].subs)
    requires !Next(cfg, n, Receive(s, PublishEvent(cid, channel, data), now)).socks[r].closed
    ensures var offered := Next(cfg, n, Receive(s, PublishEvent(cid, channel, data), now)).socks[r].offered;
      offered != [] && offered[|offered| - 1] ==
        PublishPacket(channel, if data == "" then "null" else data, PubId(cfg.instanceID, Some(s), |n.sent|))
  {
    var a := Put(n, s, Reply(cfg, n.socks[s], cid, Empty));
    assert a.socks[s].subs == n.socks[s].subs by { ReplyFeeds(cfg, n.socks[s], cid, Empty); }
    assert Subscribers(a, channel) == Subscribers(n, channel);
    PublishOffers(cfg, a, s, channel, data, r);
    if a.socks[r].closed { PublishCloses(cfg, a, s, channel, data, r); }
    hide ServerPublish, Subscribers, Reply;
  }

  lemma PublishCloses<S>(cfg: Config, n: Node<S>, source: S, channel: string, data: string, r: S)
    requires r in n.socks && n.socks[r].closed
    ensures ServerPublish(cfg, n, source, channel, data).socks[r].closed
  {
    hide Subscribers;
  }
}
