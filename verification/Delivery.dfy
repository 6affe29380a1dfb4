// Exactly-once delivery in the cluster: no publication reaches a socket twice or out
// of order, and none is missed by a socket that stays subscribed and open.
module Delivery {
  import opened Prelude
  import opened Auth
  import opened Node
  import opened NodeRuns
  import opened Cluster
  import opened Contents
  import RedisWire

  // ---- at most once, in order ----------------------------------------------

  // What socket `s` of node `k` was offered, publication by publication.
  function Got<S>(cl: Cluster<S>, k: string, s: S): seq<PubId<S>>
    requires k in cl.nodes && s in cl.nodes[k].socks
  {
    Pubs(cl.nodes[k].socks[s].offered)
  }

  lemma {:induction false} PubsPrefix<S>(a: seq<Packet<S>>, b: seq<Packet<S>>)
    requires a <= b
    ensures Pubs(a) <= Pubs(b)
  {
    if |a| < |b| {
      PubsPrefix(a, b[..|b| - 1]);
    } else {
      assert a == b;
    }
  }

  lemma RunOk<S>(cfgs: Configs, json: RedisWire.Json, es: seq<Action<S>>)
    requires Usable(cfgs, json) && Allowed(cfgs, NewCluster<S>(cfgs), es)
    ensures Ok(cfgs, json, Ran(cfgs, NewCluster<S>(cfgs), es))
  {
    NewOk<S>(cfgs, json);
    RunKeeps(cfgs, json, NewCluster<S>(cfgs), es);
  }

  lemma OrderedWhenOk<S>(cfgs: Configs, json: RedisWire.Json, cl: Cluster<S>, k: string, s: S)
    requires Ok(cfgs, json, cl) && k in cl.nodes && s in cl.nodes[k].socks
    ensures Ordered(Pubs(cl.nodes[k].socks[s].offered))
    ensures Ordered(Pubs(cl.nodes[k].socks[s].written))
  {
    hide Books, Counts, LinkOk;
    assert NodeOk(cfgs[k], cl.nodes[k]) && GotsOk(cl, k);
    hide Ok;
    var sock := cl.nodes[k].socks[s];
    assert Flow(cfgs[k], sock);
    PubsPrefix(sock.written, sock.offered);
    assert Ordered(Pubs(sock.offered));
    hide Pubs;
    forall i, j | 0 <= i < j < |Pubs(sock.written)| ensures Before(Pubs(sock.written)[i], Pubs(sock.written)[j]) {
      assert Before(Pubs(sock.offered)[i], Pubs(sock.offered)[j]);
    }
  }

  // After every run, whatever the interleaving, the losses of connections and the
  // messages from outside: the publications written to a socket are all different,
  // and those of one publisher are in the order in which it published them.
  lemma AtMostOnceInOrder<S>(cfgs: Configs, json: RedisWire.Json, es: seq<Action<S>>, k: string, s: S, i: nat, j: nat)
    requires Usable(cfgs, json) && Allowed(cfgs, NewCluster<S>(cfgs), es)
    requires var cl := Ran(cfgs, NewCluster<S>(cfgs), es);
      k in cl.nodes && s in cl.nodes[k].socks && i < j < |Pubs(cl.nodes[k].socks[s].written)|
    ensures
      var ids := Pubs(Ran(cfgs, NewCluster<S>(cfgs), es).nodes[k].socks[s].written);
      && ids[i] != ids[j]
      && (ids[i].node == ids[j].node && ids[i].source == ids[j].source ==> ids[i].serial < ids[j].serial)
  {
    hide Ok, Ran, Allowed, Pubs;
    var cl := Ran(cfgs, NewCluster<S>(cfgs), es);
    RunOk(cfgs, json, es);
    OrderedWhenOk(cfgs, json, cl, k, s);
    assert Before(Pubs(cl.nodes[k].socks[s].written)[i], Pubs(cl.nodes[k].socks[s].written)[j]);
  }

  // Reading from Redis sends nothing to Redis.
  lemma ReadSendsNothing<S>(cfgs: Configs, cl: Cluster<S>, k: string)
    requires Shape(cfgs, cl) && Can(cl, Read(k))
    ensures var after := After(cfgs, cl, Read(k));
      && after.links == cl.links[k := cl.links[k].(inbox := cl.links[k].inbox[1..])]
      && forall j | j in cl.nodes :: after.nodes[j].sent == cl.nodes[j].sent && after.nodes[j].commands == cl.nodes[j].commands
  {
    hide ReadBy;
    ReadFans(cfgs[k], cl.nodes[k], cl.links[k].inbox[0]);
  }

  // Over a whole run a node has sent its own publications, each once, and nothing else;
  // every other node makes of them the data they were sent for.
  lemma SentOnce<S>(cfgs: Configs, json: RedisWire.Json, es: seq<Action<S>>, k: string, i: nat)
    requires Usable(cfgs, json) && Allowed(cfgs, NewCluster<S>(cfgs), es)
    requires var cl := Ran(cfgs, NewCluster<S>(cfgs), es); k in cl.nodes && i < |cl.nodes[k].sent|
    ensures
      var msg := Ran(cfgs, NewCluster<S>(cfgs), es).nodes[k].sent[i];
      && msg.pub.node == k && msg.pub.serial == i && msg.raw == RedisWire.EncodeForRedis(json, k, msg.data)
      && k in cfgs && Carries(cfgs[k], msg, msg.channel, msg.data)
  {
    RunOk(cfgs, json, es);
    var cl := Ran(cfgs, NewCluster<S>(cfgs), es);
    assert NodeOk(cfgs[k], cl.nodes[k]) && cfgs[k].instanceID == k && cfgs[k].json == json;
    hide Ok, Ran, Allowed, Books, Flows;
    var msg := cl.nodes[k].sent[i];
    assert msg == MessageOf(cfgs[k], msg.pub.source.value, msg.channel, msg.data, i);
    MessageCarries(cfgs[k], msg.pub.source.value, msg.channel, msg.data, i);
  }

  // ---- a publication reaches the local subscribers -------------------------

  lemma LocalReaches<S>(cfg: Config, n: Node<S>, channel: string, data: string, pub: PubId<S>, s: S)
    requires s in n.socks && s in Subscribers(n, channel) && EncodePublish(cfg, channel, data, pub).Some?
    requires !PublishLocal(cfg, n, channel, data, pub).socks[s].closed
    ensures Packed(channel, data, pub) in PublishLocal(cfg, n, channel, data, pub).socks[s].offered
  {
    var t := Enqueue(cfg, n.socks[s], EncodePublish(cfg, channel, data, pub).value);
    assert PublishLocal(cfg, n, channel, data, pub).socks[s] == t;
    hide PublishLocal;
    assert t.offered[|n.socks[s].offered|] == Packed(channel, data, pub);
  }

  lemma ServerReaches<S>(cfg: Config, n: Node<S>, source: S, channel: string, data: string, s: S)
    requires s in n.socks && s in Subscribers(n, channel) && IsData(cfg.json, data)
    requires !ServerPublish(cfg, n, source, channel, data).socks[s].closed
    ensures Packed(channel, data, PubOf(cfg, n, source)) in ServerPublish(cfg, n, source, channel, data).socks[s].offered
  {
    var pub := PubOf(cfg, n, source);
    assert EncodePublish(cfg, channel, data, pub).Some?;
    hide PublishLocal, Packed, Subscribers, EncodePublish;
    LocalReaches(cfg, n, channel, data, pub, s);
  }

  lemma AnnounceReaches<S>(cfg: Config, n: Node<S>, source: S, p: Presence, s: S)
    requires source in n.socks && s in n.socks && s in Subscribers(n, p.channel) && IsData(cfg.json, PresenceText(cfg, p))
    requires !Announce(cfg, n, source, Some(p)).socks[s].closed
    ensures Packed(p.channel, PresenceText(cfg, p), PubOf(cfg, n, source)) in Announce(cfg, n, source, Some(p)).socks[s].offered
  {
    var a := Put(n, source, n.socks[source].(announced := n.socks[source].announced + [p]));
    assert Subscribers(a, p.channel) == Subscribers(n, p.channel);
    hide ServerPublish, Packed, PresenceText, Subscribers, IsData;
    ServerReaches(cfg, a, source, p.channel, PresenceText(cfg, p), s);
  }

  // An answer to `source` takes nothing back.
  lemma ReplyStill<S>(cfg: Config, n: Node<S>, source: S, s: S, cid: Option<int>, body: Body, p: Packet<S>)
    requires source in n.socks && s in n.socks
    requires var m := Put(n, source, Reply(cfg, n.socks[source], cid, body)); !m.socks[s].closed
    ensures !n.socks[s].closed
    ensures var m := Put(n, source, Reply(cfg, n.socks[source], cid, body));
      p in n.socks[s].offered ==> p in m.socks[s].offered
  {
    if s == source {
      hide Reply;
      ReplyFeeds(cfg, n.socks[s], cid, body);
      ReplyAdds(cfg, n.socks[s], cid, body, None);
    }
  }

  lemma SubscribeReaches<S>(cfg: Config, n: Node<S>, source: S, cid: Option<int>, channel: string, batch: bool, token: Token, p: Presence, s: S)
    requires source in n.socks && s in n.socks
    requires SubscribeVerdict(cfg, n.socks[source], channel) == Accepted(token) && OnlineEvent(cfg, token, channel) == Some(p)
    requires s in Subscribers(n, p.channel) && IsData(cfg.json, PresenceText(cfg, p))
    requires !HandleSubscribe(cfg, n, source, cid, channel, batch).socks[s].closed
    ensures Packed(p.channel, PresenceText(cfg, p), PubOf(cfg, n, source)) in HandleSubscribe(cfg, n, source, cid, channel, batch).socks[s].offered
  {
    hide Announce, HubAdd, Packed, PresenceText, OnlineEvent, SubscribeVerdict, IsData, Reply, Subscribed;
    var a := Put(n, source, Subscribed(n.socks[source], token, channel));
    assert Subscribers(a, p.channel) == Subscribers(n, p.channel);
    var b := Announce(cfg, a, source, Some(p));
    HubAddKeepsSocks(b, source, channel);
    var c := HubAdd(b, source, channel);
    ReplyStill(cfg, c, source, s, cid, if batch then Batch else Empty,
               Packed(p.channel, PresenceText(cfg, p), PubOf(cfg, n, source)));
    AnnounceReaches(cfg, a, source, p, s);
  }

  lemma PublishReaches<S>(cfg: Config, n: Node<S>, source: S, cid: Option<int>, channel: string, data: string, s: S)
    requires source in n.socks && s in n.socks && s in Subscribers(n, channel) && IsData(cfg.json, data)
    requires MadeByEvent(cfg, n.socks[source], PublishEvent(cid, channel, data)).Some?
    requires !HandlePublish(cfg, n, source, cid, channel, data).socks[s].closed
    ensures Packed(channel, data, PubOf(cfg, n, source)) in HandlePublish(cfg, n, source, cid, channel, data).socks[s].offered
  {
    hide ServerPublish, Packed, IsData, Reply;
    ReplyFeeds(cfg, n.socks[source], cid, Empty);
    var a := Put(n, source, Reply(cfg, n.socks[source], cid, Empty));
    assert Subscribers(a, channel) == Subscribers(n, channel);
    ServerReaches(cfg, a, source, channel, data, s);
  }

  lemma LeaveReaches<S>(cfg: Config, n: Node<S>, source: S, channels: seq<string>, p: Presence, s: S)
    requires HubOk(n) && source in n.socks && s in n.socks && s != source
    requires OfflineEvent(cfg, n.socks[source].token) == Some(p)
    requires s in Subscribers(n, p.channel) && IsData(cfg.json, PresenceText(cfg, p))
    requires !Cleanup(cfg, n, source, channels).socks[s].closed
    ensures Packed(p.channel, PresenceText(cfg, p), PubOf(cfg, n, source)) in Cleanup(cfg, n, source, channels).socks[s].offered
  {
    hide Announce, RemoveAll, Packed, PresenceText, OfflineEvent, IsData, Subscribers, HubOk;
    LeavingFeeds(cfg, n, source, channels);
    var a := Put(n, source, n.socks[source].(subs := {})).(registered := n.registered - {source});
    var b := RemoveAll(a, source, channels);
    assert s in Subscribers(b, p.channel);
    AnnounceReaches(cfg, b, source, p, s);
  }

  // The publication of a node's step reaches every open socket that holds its channel,
  // with its channel and its data.
  lemma StepReaches<S>(cfg: Config, n: Node<S>, step: Step<S>, s: S)
    requires Books(cfg, n) && Enabled(n, step) && !step.Deliver? && s in n.socks
    requires Made(cfg, n, step).Some? && Made(cfg, n, step).value.channel in n.socks[s].subs
    requires IsData(cfg.json, Made(cfg, n, step).value.data)
    requires !Next(cfg, n, step).socks[s].closed
    ensures
      var p := Made(cfg, n, step).value; var pub := PubOf(cfg, n, step.s);
      && PublishPacket(p.channel, if p.data == "" then "null" else p.data, pub) in Next(cfg, n, step).socks[s].offered
      && pub in Pubs(Next(cfg, n, step).socks[s].offered)
  {
    var p := Made(cfg, n, step).value;
    var pub := PubOf(cfg, n, step.s);
    assert Packed(p.channel, p.data, pub) == PublishPacket(p.channel, if p.data == "" then "null" else p.data, pub);
    hide Packed, Next, Made, Books, Enabled, IsData, Pubs;
    StepPacked(cfg, n, step, s);
    PubsHave(Next(cfg, n, step).socks[s].offered, Packed(p.channel, p.data, pub));
  }

  // The packet of a publication on the node it is made on.
  function Packed<S>(channel: string, data: string, pub: PubId<S>): Packet<S> {
    PublishPacket(channel, RedisWire.Local(data), pub)
  }

  lemma {:induction false} PubsHave<S>(ps: seq<Packet<S>>, p: Packet<S>)
    requires p in ps && p.PublishPacket?
    ensures p.pub in Pubs(ps)
  {
    var front := ps[..|ps| - 1];
    assert ps == front + [ps[|ps| - 1]];
    if p in front { PubsHave(front, p); }
  }

  lemma StepPacked<S>(cfg: Config, n: Node<S>, step: Step<S>, s: S)
    requires Books(cfg, n) && Enabled(n, step) && !step.Deliver? && s in n.socks
    requires Made(cfg, n, step).Some? && Made(cfg, n, step).value.channel in n.socks[s].subs
    requires IsData(cfg.json, Made(cfg, n, step).value.data)
    requires !Next(cfg, n, step).socks[s].closed
    ensures var p := Made(cfg, n, step).value;
      Packed(p.channel, p.data, PubOf(cfg, n, step.s)) in Next(cfg, n, step).socks[s].offered
  {
    var p := Made(cfg, n, step).value;
    assert s in Subscribers(n, p.channel) by { assert Agrees(n, s); }
    assert HubOk(n);
    hide Books, IsData, Packed, HandleSubscribe, HandlePublish, Cleanup, OnlineEvent, OfflineEvent, SubscribeVerdict, PresenceText, Subscribers, HubOk;
    match step
    case Receive(r, ev, now) =>
      match ev {
        case SubscribeEvent(cid, channel, batch) =>
          var token := SubscribeVerdict(cfg, n.socks[r], channel).token;
          SubscribeReaches(cfg, n, r, cid, channel, batch, token, OnlineEvent(cfg, token, channel).value, s);
        case PublishEvent(cid, channel, data) => PublishReaches(cfg, n, r, cid, channel, data, s);
        case _ =>
      }
    case Leave(r, channels) =>
      assert s != r by { LeaveCloses(cfg, n, r, channels); }
      LeaveReaches(cfg, n, r, channels, OfflineEvent(cfg, n.socks[r].token).value, s);
    case _ =>
  }

  lemma LeaveCloses<S>(cfg: Config, n: Node<S>, s: S, channels: seq<string>)
    requires s in n.socks
    ensures s in Cleanup(cfg, n, s, channels).socks && Cleanup(cfg, n, s, channels).socks[s].closed
  {
    hide Announce, RemoveAll, OfflineEvent;
  }

  // ---- at least once -------------------------------------------------------

  ghost predicate Holds<S>(cl: Cluster<S>, k: string, s: S, c: string) {
    k in cl.nodes && s in cl.nodes[k].socks && c in cl.nodes[k].socks[s].subs && !cl.nodes[k].socks[s].closed
  }

  predicate Deliverable<S>(cfg: Config, msg: Message<S>) {
    var data := RedisWire.Decode(cfg.json, cfg.instanceID, msg.raw);
    data.Some? && EncodePublish(cfg, msg.channel, data.value, msg.pub).Some?
  }

  // The publication `p` waits for node `k` to read it.
  ghost predicate Waits<S>(cfg: Config, inbox: seq<Message<S>>, c: string, p: PubId<S>) {
    exists j :: 0 <= j < |inbox| && inbox[j].pub == p && inbox[j].channel == c && Deliverable(cfg, inbox[j])
  }

  ghost predicate Reaches<S>(cfg: Config, sock: Sock<S>, inbox: seq<Message<S>>, c: string, p: PubId<S>) {
    p in Pubs(sock.offered) || Waits(cfg, inbox, c, p)
  }

  lemma WaitsMore<S>(cfg: Config, inbox: seq<Message<S>>, more: seq<Message<S>>, c: string, p: PubId<S>)
    requires Waits(cfg, inbox, c, p) && inbox <= more
    ensures Waits(cfg, more, c, p)
  {
    var j :| 0 <= j < |inbox| && inbox[j].pub == p && inbox[j].channel == c && Deliverable(cfg, inbox[j]);
    assert more[j] == inbox[j];
  }

  lemma HeadDelivered<S>(cfg: Config, n: Node<S>, msg: Message<S>, s: S)
    requires Books(cfg, n) && s in n.socks && msg.channel in n.socks[s].subs && Deliverable(cfg, msg)
    requires s in ReadBy(cfg, n, msg).socks && !ReadBy(cfg, n, msg).socks[s].closed
    ensures msg.pub in Pubs(ReadBy(cfg, n, msg).socks[s].offered)
  {
    assert s in Subscribers(n, msg.channel) by { assert Agrees(n, s); }
    hide Books, Pubs, Subscribers, PublishLocal, EncodePublish, RedisWire.Decode;
    LocalReaches(cfg, n, msg.channel, RedisWire.Decode(cfg.json, cfg.instanceID, msg.raw).value, msg.pub, s);
  }

  lemma ReadGot<S>(cfg: Config, n: Node<S>, msg: Message<S>, s: S, p: PubId<S>)
    requires NodeOk(cfg, n) && s in n.socks && p in Pubs(n.socks[s].offered)
    ensures s in ReadBy(cfg, n, msg).socks && p in Pubs(ReadBy(cfg, n, msg).socks[s].offered)
  {
    hide NodeOk, Pubs, Flow, ReadBy, RedisWire.Decode, Fanned;
    ReadNodeOk(cfg, n, msg);
    assert Feeds(cfg, n.socks[s], ReadBy(cfg, n, msg).socks[s], [msg.pub]);
  }

  lemma WaitsTail<S>(cfg: Config, inbox: seq<Message<S>>, c: string, p: PubId<S>)
    requires Waits(cfg, inbox, c, p)
    ensures inbox != []
    ensures (inbox[0].pub == p && inbox[0].channel == c && Deliverable(cfg, inbox[0])) || Waits(cfg, inbox[1..], c, p)
  {
    hide Deliverable;
    var j :| 0 <= j < |inbox| && inbox[j].pub == p && inbox[j].channel == c && Deliverable(cfg, inbox[j]);
    if j > 0 { assert inbox[1..][j - 1] == inbox[j]; }
  }

  // A message that waits goes on waiting, or is offered to the sockets that hold
  // its channel.
  lemma ReadStill<S>(cfg: Config, n: Node<S>, inbox: seq<Message<S>>, s: S, c: string, p: PubId<S>)
    requires NodeOk(cfg, n) && inbox != [] && s in n.socks && c in n.socks[s].subs
    requires s in ReadBy(cfg, n, inbox[0]).socks && !ReadBy(cfg, n, inbox[0]).socks[s].closed
    requires Reaches(cfg, n.socks[s], inbox, c, p)
    ensures Reaches(cfg, ReadBy(cfg, n, inbox[0]).socks[s], inbox[1..], c, p)
  {
    NodeOkParts(cfg, n);
    hide NodeOk, Books, Flows, SentOk, Pubs, ReadBy, Deliverable, Waits;
    if p in Pubs(n.socks[s].offered) {
      ReadGot(cfg, n, inbox[0], s, p);
    } else {
      WaitsTail(cfg, inbox, c, p);
      if !Waits(cfg, inbox[1..], c, p) { HeadDelivered(cfg, n, inbox[0], s); }
    }
  }

  lemma StepStill<S>(cfg: Config, n: Node<S>, step: Step<S>, s: S, p: PubId<S>)
    requires NodeOk(cfg, n) && Enabled(n, step) && !step.Deliver? && s in n.socks && p in Pubs(n.socks[s].offered)
    ensures s in Next(cfg, n, step).socks && p in Pubs(Next(cfg, n, step).socks[s].offered)
  {
    hide NodeOk, Pubs, Enabled, Next, StepPub, Stepped;
    StepNodeOk(cfg, n, step);
    SteppedGot(cfg, n, Next(cfg, n, step), step, s);
  }

  ghost predicate Breaks<S>(e: Action<S>, k: string) { e.LinkDown? && e.k == k }

  lemma InboxGrows<S>(cfgs: Configs, cl: Cluster<S>, e: Action<S>, k: string)
    requires Shape(cfgs, cl) && Can(cl, e) && k in cl.links && !Breaks(e, k) && !(e.Read? && e.k == k)
    ensures k in After(cfgs, cl, e).links && cl.links[k].inbox <= After(cfgs, cl, e).links[k].inbox
  {
    hide Enabled, Next, StepSent, ReadBy, Replay;
  }

  // What has reached a socket, or waits for it, does so after every step.
  lemma StillReaches<S>(cfgs: Configs, json: RedisWire.Json, cl: Cluster<S>, after: Cluster<S>, e: Action<S>, k: string, s: S, c: string, p: PubId<S>)
    requires Ok(cfgs, json, cl) && Can(cl, e) && after == After(cfgs, cl, e)
    requires !Breaks(e, k) && Holds(cl, k, s, c) && Holds(after, k, s, c) && k in after.links
    requires Reaches(cfgs[k], cl.nodes[k].socks[s], cl.links[k].inbox, c, p)
    ensures Reaches(cfgs[k], after.nodes[k].socks[s], after.links[k].inbox, c, p)
  {
    assert NodeOk(cfgs[k], cl.nodes[k]);
    hide Waits, Pubs, NodeOk, Enabled;
    if e.Read? && e.k == k {
      AfterRead(cfgs, cl, k);
      hide Ok, After;
      ReadStill(cfgs[k], cl.nodes[k], cl.links[k].inbox, s, c, p);
    } else {
      InboxGrows(cfgs, cl, e, k);
      SameOrStepped(cfgs, cl, e, k);
      hide Ok, After;
      if p in Pubs(cl.nodes[k].socks[s].offered) {
        if e.NodeStep? && e.k == k { StepStill(cfgs[k], cl.nodes[k], e.step, s, p); }
      } else {
        WaitsMore(cfgs[k], cl.links[k].inbox, after.links[k].inbox, c, p);
      }
    }
  }

  lemma SameOrStepped<S>(cfgs: Configs, cl: Cluster<S>, e: Action<S>, k: string)
    requires Shape(cfgs, cl) && Can(cl, e) && k in cl.nodes && !(e.Read? && e.k == k)
    ensures var after := After(cfgs, cl, e);
      k in after.nodes && after.nodes[k] == if e.NodeStep? && e.k == k then Next(cfgs[k], cl.nodes[k], e.step) else cl.nodes[k]
  {
    hide Enabled, Next, StepSent, ReadBy, Replay;
  }

  // ---- exactly once --------------------------------------------------------

  ghost predicate QuotesAreJson(json: RedisWire.Json) { forall v :: json.valid(json.quote(v)) }

  lemma DecodedIsJson(json: RedisWire.Json, id: string, raw: string)
    requires QuotesAreJson(json) && RedisWire.Decode(json, id, raw).Some?
    ensures json.valid(RedisWire.Decode(json, id, raw).value)
  {
    hide RedisWire.Split;
    var message := RedisWire.Split(raw).1;
    if |message| >= 2 { assert json.valid(json.quote(message[2..])); }
  }

  // A message of another node can be delivered, whatever its data.
  lemma OthersDeliverable<S>(cfg: Config, k: string, source: S, channel: string, data: string, serial: nat, sender: Config)
    requires QuotesAreJson(cfg.json) && sender.json == cfg.json
    requires RedisWire.Readable(sender.instanceID) && sender.instanceID != cfg.instanceID
    ensures Deliverable(cfg, MessageOf(sender, source, channel, data, serial))
  {
    hide RedisWire.Decode, RedisWire.EncodeForRedis, RedisWire.Readable;
    RedisWire.OtherNodeDelivers(cfg.json, sender.instanceID, cfg.instanceID, data);
    DecodedIsJson(cfg.json, cfg.instanceID, MessageOf(sender, source, channel, data, serial).raw);
  }

  lemma HandHas<S>(link: Link<S>, msg: Message<S>)
    requires link.up && msg.channel in link.wire
    ensures Hand(link, [msg]).inbox == link.inbox + [msg]
  {
  }

  lemma HandedTo<S>(cfgs: Configs, cl: Cluster<S>, k0: string, step: Step<S>, k: string)
    requires Shape(cfgs, cl) && Can(cl, NodeStep(k0, step, true)) && k in cl.links && k != k0
    ensures var after := After(cfgs, cl, NodeStep(k0, step, true));
      k in after.links && after.links[k] == Hand(cl.links[k], StepSent(cfgs[k0], cl.nodes[k0], step))
  {
    hide Enabled, Next, StepSent, Hand;
  }

  // A publication, carried by Redis, reaches or waits for every socket that holds
  // its channel: at once on the node it is made on, and elsewhere if the node's
  // subscription is in place.
  lemma PublishedReaches<S>(cfgs: Configs, json: RedisWire.Json, cl: Cluster<S>, after: Cluster<S>, k0: string, step: Step<S>, k: string, s: S)
    requires Ok(cfgs, json, cl) && QuotesAreJson(json)
    requires Can(cl, NodeStep(k0, step, true)) && after == After(cfgs, cl, NodeStep(k0, step, true))
    requires Made(cfgs[k0], cl.nodes[k0], step).Some? && IsData(json, Made(cfgs[k0], cl.nodes[k0], step).value.data)
    requires var c := Made(cfgs[k0], cl.nodes[k0], step).value.channel;
      && Holds(cl, k, s, c) && Holds(after, k, s, c) && k in cl.links && k in after.links
      && (k != k0 ==> cl.links[k].up && c in cl.links[k].wire)
    ensures Reaches(cfgs[k], after.nodes[k].socks[s], after.links[k].inbox,
                    Made(cfgs[k0], cl.nodes[k0], step).value.channel, PubOf(cfgs[k0], cl.nodes[k0], step.s))
  {
    var n0 := cl.nodes[k0];
    var made := Made(cfgs[k0], n0, step).value;
    var c := made.channel;
    assert NodeOk(cfgs[k0], n0) && cfgs[k0].json == json && cfgs[k].json == json && cfgs[k0].instanceID == k0
      && cfgs[k].instanceID == k && RedisWire.Readable(k0) && Shape(cfgs, cl);
    hide Ok, Pubs, Books, Flows, SentOk, Next, Made, RedisWire.Readable, IsData, MadeByEvent, PresencePublication;
    if k == k0 {
      SameOrStepped(cfgs, cl, NodeStep(k0, step, true), k);
      hide After;
      StepReaches(cfgs[k], n0, step, s);
    } else {
      var msg := MessageOf(cfgs[k0], step.s, c, made.data, |n0.sent|);
      assert StepSent(cfgs[k0], n0, step) == [msg];
      HandedTo(cfgs, cl, k0, step, k);
      hide After, Deliverable;
      HandHas(cl.links[k], msg);
      OthersDeliverable(cfgs[k], k, step.s, c, made.data, |n0.sent|, cfgs[k0]);
      assert after.links[k].inbox[|cl.links[k].inbox|] == msg;
    }
  }

  // All along the run: the socket is open and holds the channel, and the connection
  // of its node to Redis does not break.
  ghost predicate Throughout<S>(cfgs: Configs, cl: Cluster<S>, es: seq<Action<S>>, k: string, s: S, c: string)
    requires Shape(cfgs, cl) && Allowed(cfgs, cl, es)
    decreases |es|
  {
    Holds(cl, k, s, c) && (es == [] || (!Breaks(es[0], k) && Throughout(cfgs, After(cfgs, cl, es[0]), es[1..], k, s, c)))
  }

  lemma {:induction false} RunReaches<S>(cfgs: Configs, json: RedisWire.Json, cl: Cluster<S>, es: seq<Action<S>>, k: string, s: S, c: string, p: PubId<S>)
    requires Ok(cfgs, json, cl) && Allowed(cfgs, cl, es) && Throughout(cfgs, cl, es, k, s, c) && k in cl.links
    requires Reaches(cfgs[k], cl.nodes[k].socks[s], cl.links[k].inbox, c, p)
    ensures var last := Ran(cfgs, cl, es);
      && Ok(cfgs, json, last) && Holds(last, k, s, c) && k in last.links
      && Reaches(cfgs[k], last.nodes[k].socks[s], last.links[k].inbox, c, p)
    decreases |es|
  {
    if es != [] {
      hide Ok, After, Holds, Reaches;
      var after := After(cfgs, cl, es[0]);
      EventKeeps(cfgs, json, cl, es[0]);
      assert Throughout(cfgs, after, es[1..], k, s, c) && Holds(after, k, s, c);
      StillReaches(cfgs, json, cl, after, es[0], k, s, c, p);
      RunReaches(cfgs, json, after, es[1..], k, s, c, p);
    }
  }

  // Exactly once: a publication that Redis carries is offered once, and in the order
  // of its publisher, to every socket that holds its channel from then until the
  // inbox of its node is drained.
  lemma ExactlyOnce<S>(cfgs: Configs, json: RedisWire.Json, cl: Cluster<S>, after: Cluster<S>, last: Cluster<S>,
                       k0: string, step: Step<S>, made: Publication, es: seq<Action<S>>, k: string, s: S)
    returns (i: nat)
    requires Ok(cfgs, json, cl) && QuotesAreJson(json)
    requires Can(cl, NodeStep(k0, step, true)) && after == After(cfgs, cl, NodeStep(k0, step, true))
    requires Made(cfgs[k0], cl.nodes[k0], step) == Some(made) && IsData(json, made.data)
    requires Shape(cfgs, after) && Allowed(cfgs, after, es) && last == Ran(cfgs, after, es)
    requires Holds(cl, k, s, made.channel) && Throughout(cfgs, after, es, k, s, made.channel)
    requires k != k0 ==> k in cl.links && cl.links[k].up && made.channel in cl.links[k].wire
    requires k in last.links && last.links[k].inbox == []
    ensures
      var p := PubOf(cfgs[k0], cl.nodes[k0], step.s);
      && Holds(last, k, s, made.channel)
      && Ordered(Got(last, k, s)) && i < |Got(last, k, s)|
      && forall j | 0 <= j < |Got(last, k, s)| :: Got(last, k, s)[j] == p <==> j == i
  {
    hide After, Made, Throughout, Allowed, Ran, Pubs, Reaches, IsData, QuotesAreJson, Enabled, Ok, Holds;
    assert Shape(cfgs, cl) by { OkShape(cfgs, json, cl); }
    var p := PubOf(cfgs[k0], cl.nodes[k0], step.s);
    var c := made.channel;
    ThroughoutAtFirst(cfgs, after, es, k, s, c);
    Linked(cfgs, after, k, s, c);
    Linked(cfgs, cl, k, s, c);
    PublishedReaches(cfgs, json, cl, after, k0, step, k, s);
    EventKeeps(cfgs, json, cl, NodeStep(k0, step, true));
    RunReaches(cfgs, json, after, es, k, s, c, p);
    i := ReachedOnce(cfgs, json, last, k, s, c, p);
  }

  lemma ThroughoutAtFirst<S>(cfgs: Configs, cl: Cluster<S>, es: seq<Action<S>>, k: string, s: S, c: string)
    requires Shape(cfgs, cl) && Allowed(cfgs, cl, es) && Throughout(cfgs, cl, es, k, s, c)
    ensures Holds(cl, k, s, c)
  {
    hide Shape, Allowed;
  }

  lemma Linked<S>(cfgs: Configs, cl: Cluster<S>, k: string, s: S, c: string)
    requires Shape(cfgs, cl) && Holds(cl, k, s, c)
    ensures k in cfgs && k in cl.nodes && k in cl.links && s in cl.nodes[k].socks
  {
  }

  // With nothing left in the inbox a publication has been offered, once.
  lemma ReachedOnce<S>(cfgs: Configs, json: RedisWire.Json, last: Cluster<S>, k: string, s: S, c: string, p: PubId<S>)
    returns (i: nat)
    requires Ok(cfgs, json, last) && Holds(last, k, s, c) && k in cfgs && k in last.links && last.links[k].inbox == []
    requires Reaches(cfgs[k], last.nodes[k].socks[s], last.links[k].inbox, c, p)
    ensures Ordered(Got(last, k, s)) && i < |Got(last, k, s)|
    ensures forall j | 0 <= j < |Got(last, k, s)| :: Got(last, k, s)[j] == p <==> j == i
  {
    hide Ok, Ordered, Pubs, Reaches;
    OrderedWhenOk(cfgs, json, last, k, s);
    ReachedAll(cfgs[k], last.nodes[k].socks[s], c, p);
    i := OnlyIndex(Got(last, k, s), p);
  }

  lemma OnlyIndex<S>(ids: seq<PubId<S>>, p: PubId<S>) returns (i: nat)
    requires Ordered(ids) && p in ids
    ensures i < |ids| && forall j | 0 <= j < |ids| :: ids[j] == p <==> j == i
  {
    i :| 0 <= i < |ids| && ids[i] == p;
    forall j | 0 <= j < |ids| && j != i ensures ids[j] != p {
      if j < i { assert Before(ids[j], ids[i]); } else { assert Before(ids[i], ids[j]); }
    }
  }

  lemma ReachedAll<S>(cfg: Config, sock: Sock<S>, c: string, p: PubId<S>)
    requires Reaches(cfg, sock, [], c, p)
    ensures p in Pubs(sock.offered)
  {
  }

  lemma OutsideHanded<S>(cfgs: Configs, cl: Cluster<S>, channel: string, raw: string, k: string)
    requires Shape(cfgs, cl) && k in cl.links
    ensures var after := After(cfgs, cl, External(channel, raw));
      after.nodes == cl.nodes && k in after.links && after.links[k] == Hand(cl.links[k], [Outside(cl, channel, raw)])
  {
    hide Hand;
  }

  // What PHP publishes reaches the sockets of every node in the same way.
  lemma OutsideReaches<S>(cfgs: Configs, json: RedisWire.Json, cl: Cluster<S>, after: Cluster<S>, channel: string, body: string, k: string, s: S)
    requires Ok(cfgs, json, cl) && json.valid(body) && body != "" && after == After(cfgs, cl, External(channel, "o:" + body))
    requires Holds(cl, k, s, channel) && k in cl.links && cl.links[k].up && channel in cl.links[k].wire
    ensures Holds(after, k, s, channel) && k in after.links
    ensures Reaches(cfgs[k], after.nodes[k].socks[s], after.links[k].inbox, channel, PubId("", None, cl.external))
  {
    var msg := Outside(cl, channel, "o:" + body);
    assert cfgs[k].json == json && Shape(cfgs, cl);
    hide Ok, Pubs, RedisWire.Decode, After, Hand;
    OutsideHanded(cfgs, cl, channel, "o:" + body, k);
    HandHas(cl.links[k], msg);
    RedisWire.UnprefixedKept(json, cfgs[k].instanceID, body);
    assert Deliverable(cfgs[k], msg);
    hide Deliverable;
    assert after.links[k].inbox[|cl.links[k].inbox|] == msg;
  }
}
