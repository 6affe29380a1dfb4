// What one socket makes of a step, packets aside: a transition of its own, whatever
// the other sockets do.
module SocketRuns {
  import opened Prelude
  import opened Auth
  import opened Node
  import opened NodeRuns

  // Equal but for packets.
  ghost predicate SameOwn<S>(s: Sock<S>, t: Sock<S>) {
    && t.handshaken == s.handshaken && t.authed == s.authed && t.token == s.token
    && t.subs == s.subs && t.gone == s.gone && t.announced == s.announced
  }

  function WithPresence<S>(s: Sock<S>, p: Option<Presence>): Sock<S> {
    if p.Some? then s.(announced := s.announced + [p.value]) else s
  }

  function OwnEvent<S>(cfg: Config, s: Sock<S>, ev: Event, now: int): Sock<S> {
    match ev
    case SubscribeEvent(_, channel, _) =>
      var v := SubscribeVerdict(cfg, s, channel);
      if v.Refused? then s
      else WithPresence(Subscribed(s, v.token, channel), OnlineEvent(cfg, v.token, channel))
    case UnsubscribeEvent(_, channel) => if channel == "" then s else s.(subs := s.subs - {channel})
    case PublishEvent(_, _, _) => s
    case _ => HandleAlone(cfg, s, ev, now)
  }

  function Own<S(==)>(cfg: Config, s: Sock<S>, step: Step<S>, me: S): Sock<S> {
    match step
    case Receive(r, ev, now) => if r == me then OwnEvent(cfg, s, ev, now) else s
    case Leave(r, _) => if r == me then WithPresence(s.(subs := {}, gone := true), OfflineEvent(cfg, s.token)) else s
    case _ => s
  }

  lemma AnnouncedOwn<S>(n: Node<S>, m: Node<S>, s: S, p: Option<Presence>, r: S)
    requires s in n.socks && Announced(n, m, s, p) && r in n.socks
    ensures SameOwn(if r == s then WithPresence(n.socks[s], p) else n.socks[r], m.socks[r])
  {
    assert n.socks[s].announced + [] == n.socks[s].announced;
  }

  lemma ReplyOwn<S>(cfg: Config, n: Node<S>, s: S, cid: Option<int>, body: Body, r: S)
    requires s in n.socks && r in n.socks
    ensures SameOwn(n.socks[r], Put(n, s, Reply(cfg, n.socks[s], cid, body)).socks[r])
  {
    ReplyFeeds(cfg, n.socks[s], cid, body);
  }

  lemma SubscribeOwn<S>(cfg: Config, n: Node<S>, s: S, cid: Option<int>, channel: string, batch: bool, now: int, r: S)
    requires s in n.socks && r in n.socks
    ensures r in HandleSubscribe(cfg, n, s, cid, channel, batch).socks
    ensures SameOwn(if r == s then OwnEvent(cfg, n.socks[s], SubscribeEvent(cid, channel, batch), now) else n.socks[r],
                    HandleSubscribe(cfg, n, s, cid, channel, batch).socks[r])
  {
    var v := SubscribeVerdict(cfg, n.socks[s], channel);
    hide Announce, HubAdd, OnlineEvent, SubscribeVerdict, Reply, Subscribed, Refuse;
    if v.Refused? {
      RefuseFeeds(cfg, n.socks[s], cid, v.error);
    } else {
      var p := OnlineEvent(cfg, v.token, channel);
      var a := Put(n, s, Subscribed(n.socks[s], v.token, channel));
      AnnounceFeeds(cfg, a, s, p);
      AnnouncedOwn(a, Announce(cfg, a, s, p), s, p, r);
      HubAddKeepsSocks(Announce(cfg, a, s, p), s, channel);
      ReplyOwn(cfg, Admit(cfg, n, s, v.token, channel), s, cid, if batch then Batch else Empty, r);
    }
  }

  lemma UnsubscribeOwn<S>(cfg: Config, n: Node<S>, s: S, cid: Option<int>, channel: string, now: int, r: S)
    requires s in n.socks && r in n.socks
    ensures r in HandleUnsubscribe(cfg, n, s, cid, channel).socks
    ensures SameOwn(if r == s then OwnEvent(cfg, n.socks[s], UnsubscribeEvent(cid, channel), now) else n.socks[r],
                    HandleUnsubscribe(cfg, n, s, cid, channel).socks[r])
  {
    hide HubRemove, Reply;
    if channel != "" {
      var b := Put(n, s, n.socks[s].(subs := n.socks[s].subs - {channel}));
      var a := if channel in n.socks[s].subs then HubRemove(b, s, channel) else n;
      RemoveKeepsSocks(b, s, channel);
      assert a.socks.Keys == n.socks.Keys;
      ReplyOwn(cfg, a, s, cid, Empty, r);
      if channel !in n.socks[s].subs { assert n.socks[s].subs - {channel} == n.socks[s].subs; }
    }
  }

  lemma PublishOwn<S>(cfg: Config, n: Node<S>, s: S, cid: Option<int>, channel: string, data: string, r: S)
    requires s in n.socks && r in n.socks
    ensures r in HandlePublish(cfg, n, s, cid, channel, data).socks
    ensures SameOwn(n.socks[r], HandlePublish(cfg, n, s, cid, channel, data).socks[r])
  {
    hide ServerPublish, Reply;
    ReplyOwn(cfg, n, s, cid, Empty, r);
    ServerPublishFeeds(cfg, Put(n, s, Reply(cfg, n.socks[s], cid, Empty)), s, channel, data);
  }

  lemma LeaveOwn<S>(cfg: Config, n: Node<S>, s: S, channels: seq<string>, r: S)
    requires s in n.socks && r in n.socks
    ensures r in Cleanup(cfg, n, s, channels).socks
    ensures SameOwn(Own(cfg, n.socks[r], Leave(s, channels), r), Cleanup(cfg, n, s, channels).socks[r])
  {
    hide Announce, RemoveAll, OfflineEvent;
    var p := OfflineEvent(cfg, n.socks[s].token);
    var a := Put(n, s, n.socks[s].(subs := {})).(registered := n.registered - {s});
    var b := RemoveAll(a, s, channels);
    AnnounceFeeds(cfg, b, s, p);
    AnnouncedOwn(b, Announce(cfg, b, s, p), s, p, r);
  }

  // Every step takes every socket where its own transition does.
  lemma OwnStep<S>(cfg: Config, n: Node<S>, step: Step<S>, r: S)
    requires Enabled(n, step) && r in n.socks
    ensures r in Next(cfg, n, step).socks
    ensures SameOwn(Own(cfg, n.socks[r], step, r), Next(cfg, n, step).socks[r])
  {
    hide HandleSubscribe, HandleUnsubscribe, HandlePublish, HandleAlone, Cleanup, PublishLocal, Enqueue, SubscribeVerdict, OnlineEvent, OfflineEvent;
    match step
    case Receive(s, ev, now) =>
      match ev {
        case SubscribeEvent(cid, channel, batch) => SubscribeOwn(cfg, n, s, cid, channel, batch, now, r);
        case UnsubscribeEvent(cid, channel) => UnsubscribeOwn(cfg, n, s, cid, channel, now, r);
        case PublishEvent(cid, channel, data) => PublishOwn(cfg, n, s, cid, channel, data, r);
        case _ =>
      }
    case Leave(s, channels) => LeaveOwn(cfg, n, s, channels, r);
    case Deliver(channel, data, pub) => PublishLocalFeeds(cfg, n, channel, data, pub);
    case ReceivePing(s) => EnqueueFeeds(cfg, n.socks[s], Pong);
    case Tick(s) => EnqueueFeeds(cfg, n.socks[s], Ping);
    case _ =>
  }
}
