// What publications say, over whole runs of the cluster: every packet on every socket
// carries what the message of its name was sent for.
module ClusterContents {
  import opened Prelude
  import opened Node
  import opened NodeRuns
  import opened Cluster
  import opened Contents
  import RedisWire

  // What was published from outside, in order.
  datatype Out = Out(channel: string, raw: string)

  function Outs<S>(es: seq<Action<S>>): seq<Out> {
    if es == [] then []
    else (if es[0].External? then [Out(es[0].channel, es[0].raw)] else []) + Outs(es[1..])
  }

  // A packet on node `k` has the channel and the data of the message that it is named
  // after: as it was published on that node, and as other nodes deliver it elsewhere.
  ghost predicate TrueTo<S>(json: RedisWire.Json, cl: Cluster<S>, outs: seq<Out>, k: string, q: Packet<S>)
    requires q.PublishPacket?
  {
    var p := q.pub;
    if p.node == ""
    then
      && p.serial < |outs| && q.channel == outs[p.serial].channel
      && RedisWire.Decode(json, k, outs[p.serial].raw).Some?
      && q.data == RedisWire.Local(RedisWire.Decode(json, k, outs[p.serial].raw).value)
    else
      && p.node in cl.nodes && p.serial < |cl.nodes[p.node].sent|
      && var msg := cl.nodes[p.node].sent[p.serial];
         q.channel == msg.channel && q.data == if p.node == k then RedisWire.Local(msg.data) else RedisWire.Delivered(json, msg.data)
  }

  ghost predicate AllTrue<S>(json: RedisWire.Json, cl: Cluster<S>, outs: seq<Out>, k: string, ps: seq<Packet<S>>) {
    forall i | 0 <= i < |ps| && ps[i].PublishPacket? :: TrueTo(json, cl, outs, k, ps[i])
  }

  // A message from outside is the one it is named after.
  ghost predicate InboxTrue<S>(outs: seq<Out>, inbox: seq<Message<S>>) {
    forall i | 0 <= i < |inbox| && inbox[i].pub.node == "" ::
      inbox[i].pub.serial < |outs| && Out(inbox[i].channel, inbox[i].raw) == outs[inbox[i].pub.serial]
  }

  ghost predicate TextsOk<S>(json: RedisWire.Json, cl: Cluster<S>, outs: seq<Out>) {
    && |outs| == cl.external
    && (forall k, s | k in cl.nodes && s in cl.nodes[k].socks :: AllTrue(json, cl, outs, k, cl.nodes[k].socks[s].offered))
    && (forall k | k in cl.links :: InboxTrue(outs, cl.links[k].inbox))
  }

  lemma TrueStays<S>(json: RedisWire.Json, cl: Cluster<S>, after: Cluster<S>, outs: seq<Out>, more: seq<Out>, k: string, ps: seq<Packet<S>>)
    requires Grown(cl, after) && outs <= more && AllTrue(json, cl, outs, k, ps)
    ensures AllTrue(json, after, more, k, ps)
  {
    hide RedisWire.Decode, RedisWire.Delivered;
    forall i | 0 <= i < |ps| && ps[i].PublishPacket? ensures TrueTo(json, after, more, k, ps[i]) {
      assert TrueTo(json, cl, outs, k, ps[i]);
    }
  }

  // What was offered before is true still, and so is the one publication added.
  lemma TrueAdded<S>(json: RedisWire.Json, cl: Cluster<S>, outs: seq<Out>, k: string, s: Sock<S>, t: Sock<S>, w: Option<Packet<S>>)
    requires AllTrue(json, cl, outs, k, s.offered) && Adds(s, t, w)
    requires w.Some? ==> w.value.PublishPacket? && TrueTo(json, cl, outs, k, w.value)
    ensures AllTrue(json, cl, outs, k, t.offered)
  {
    hide TrueTo;
    forall i | 0 <= i < |t.offered| && t.offered[i].PublishPacket? ensures TrueTo(json, cl, outs, k, t.offered[i]) {
      if i < |s.offered| { assert t.offered[i] == s.offered[i]; }
    }
  }

  lemma InboxLess<S>(outs: seq<Out>, inbox: seq<Message<S>>, less: seq<Message<S>>)
    requires InboxTrue(outs, inbox) && forall i | 0 <= i < |less| :: less[i] in inbox
    ensures InboxTrue(outs, less)
  {
    forall i | 0 <= i < |less| && less[i].pub.node == ""
      ensures less[i].pub.serial < |outs| && Out(less[i].channel, less[i].raw) == outs[less[i].pub.serial]
    {
      var j :| 0 <= j < |inbox| && inbox[j] == less[i];
    }
  }

  lemma InboxMore<S>(outs: seq<Out>, more: seq<Out>, inbox: seq<Message<S>>, msgs: seq<Message<S>>)
    requires InboxTrue(outs, inbox) && outs <= more && InboxTrue(more, msgs)
    ensures InboxTrue(more, inbox + msgs) && InboxTrue(more, inbox)
  {
  }

  // ---- a step of one node --------------------------------------------------

  // The publication of a step is that of the message it sends.
  lemma StepMeansSent<S>(cfg: Config, n: Node<S>, m: Node<S>, step: Step<S>)
    requires NodeOk(cfg, n) && Enabled(n, step) && !step.Deliver? && m == Next(cfg, n, step)
    ensures n.sent <= m.sent
    ensures var w := StepMeans(cfg, n, step);
      w.Some? ==>
        && |m.sent| == |n.sent| + 1 && !step.Deliver?
        && w.value == PublishPacket(m.sent[|n.sent|].channel, RedisWire.Local(m.sent[|n.sent|].data), PubOf(cfg, n, step.s))
  {
    hide NodeOk, Next, Enabled, Books, NodeFeeds, RedisWire.Local, MadeByEvent, PresencePublication, Carries, Made;
    StepNodeOk(cfg, n, step);
    assert m.sent == n.sent + StepSent(cfg, n, step);
    if step.Receive? || step.Leave? {
      var p := Made(cfg, n, step);
      if p.Some? {
        SentForSends(cfg, n, m, step.s, p.value);
        CarriesSo(cfg, m.sent[|n.sent|], p.value);
      }
    }
  }

  lemma CarriesSo<S>(cfg: Config, msg: Message<S>, p: Publication)
    requires Carries(cfg, msg, p.channel, p.data)
    ensures msg.channel == p.channel && msg.data == p.data
  {
  }

  lemma OkParts<S>(cfgs: Configs, json: RedisWire.Json, cl: Cluster<S>, k: string)
    requires Ok(cfgs, json, cl) && k in cl.nodes
    ensures Shape(cfgs, cl) && NodeOk(cfgs[k], cl.nodes[k]) && LinkOk(cl, k)
    ensures k != "" && cfgs[k].instanceID == k && cfgs[k].json == json && RedisWire.Readable(k)
  {
    hide NodeOk, LinkOk, GotsOk;
  }

  // It is true to that message.
  lemma MadeIsTrue<S>(cfgs: Configs, json: RedisWire.Json, cl: Cluster<S>, after: Cluster<S>, outs: seq<Out>, k: string, step: Step<S>)
    requires Ok(cfgs, json, cl) && k in cl.nodes && Enabled(cl.nodes[k], step) && !step.Deliver? && k in cfgs
    requires after.nodes == cl.nodes[k := Next(cfgs[k], cl.nodes[k], step)]
    ensures Grown(cl, after)
    ensures var w := StepMeans(cfgs[k], cl.nodes[k], step);
      w.Some? ==> w.value.PublishPacket? && TrueTo(json, after, outs, k, w.value)
  {
    hide Ok, NodeOk, LinkOk, Next, Enabled, StepMeans, RedisWire.Decode, RedisWire.Delivered, RedisWire.Readable, RedisWire.Local;
    OkParts(cfgs, json, cl, k);
    StepMeansSent(cfgs[k], cl.nodes[k], after.nodes[k], step);
  }

  lemma NodeStepTrue<S>(cfgs: Configs, json: RedisWire.Json, cl: Cluster<S>, after: Cluster<S>, outs: seq<Out>, k: string, step: Step<S>, j: string, s: S)
    requires Ok(cfgs, json, cl) && TextsOk(json, cl, outs) && k in cl.nodes && k in cfgs && Enabled(cl.nodes[k], step) && !step.Deliver?
    requires after.nodes == cl.nodes[k := Next(cfgs[k], cl.nodes[k], step)]
    requires j in after.nodes && s in after.nodes[j].socks
    ensures AllTrue(json, after, outs, j, after.nodes[j].socks[s].offered)
  {
    hide Ok, Next, Enabled, NodeOk, LinkOk, TrueTo, StepMeans, Adds, AllTrue, Grown;
    OkParts(cfgs, json, cl, k);
    MadeIsTrue(cfgs, json, cl, after, outs, k, step);
    if s in cl.nodes[j].socks {
      assert AllTrue(json, cl, outs, j, cl.nodes[j].socks[s].offered);
      TrueStays(json, cl, after, outs, outs, j, cl.nodes[j].socks[s].offered);
      if j == k {
        StepAdds(cfgs[k], cl.nodes[k], step, s);
        TrueAdded(json, after, outs, k, cl.nodes[k].socks[s], after.nodes[k].socks[s], StepMeans(cfgs[k], cl.nodes[k], step));
      }
    } else {
      StepNodeOk(cfgs[k], cl.nodes[k], step);
      NewIsBare(cfgs[k], cl.nodes[k], after.nodes[k], step, s);
      NothingTrue(json, after, outs, j);
    }
  }

  lemma NewIsBare<S>(cfg: Config, n: Node<S>, m: Node<S>, step: Step<S>, s: S)
    requires Stepped(cfg, n, m, step) && s in m.socks && s !in n.socks
    ensures m.socks[s].offered == []
  {
    hide Books, NodeFeeds, StepSent;
  }

  lemma NothingTrue<S>(json: RedisWire.Json, cl: Cluster<S>, outs: seq<Out>, k: string)
    ensures AllTrue(json, cl, outs, k, [])
  {
  }

  // Messages of a node are not from outside.
  lemma SentInside<S>(cfgs: Configs, json: RedisWire.Json, cl: Cluster<S>, k: string, step: Step<S>, outs: seq<Out>)
    requires Ok(cfgs, json, cl) && k in cl.nodes && Enabled(cl.nodes[k], step) && !step.Deliver?
    ensures InboxTrue(outs, StepSent(cfgs[k], cl.nodes[k], step))
  {
    assert cfgs[k].instanceID == k && k != "";
    hide Ok, Enabled, StepSent, StepPub;
    SentOfStep(cfgs[k], cl.nodes[k], step);
  }

  lemma NodeStepTells<S>(cfgs: Configs, json: RedisWire.Json, cl: Cluster<S>, outs: seq<Out>, k: string, step: Step<S>, delivered: bool)
    requires Ok(cfgs, json, cl) && TextsOk(json, cl, outs) && Can(cl, NodeStep(k, step, delivered))
    ensures TextsOk(json, After(cfgs, cl, NodeStep(k, step, delivered)), outs)
  {
    hide AllTrue, InboxTrue, Next, Enabled, StepSent;
    var after := After(cfgs, cl, NodeStep(k, step, delivered));
    var msgs := StepSent(cfgs[k], cl.nodes[k], step);
    SentInside(cfgs, json, cl, k, step, outs);
    assert after.nodes == cl.nodes[k := Next(cfgs[k], cl.nodes[k], step)];
    forall j, s | j in after.nodes && s in after.nodes[j].socks ensures AllTrue(json, after, outs, j, after.nodes[j].socks[s].offered) {
      NodeStepTrue(cfgs, json, cl, after, outs, k, step, j, s);
    }
    forall j | j in after.links ensures InboxTrue(outs, after.links[j].inbox) {
      assert InboxTrue(outs, cl.links[j].inbox);
      InboxMore(outs, outs, cl.links[j].inbox, msgs);
    }
  }

  // ---- the outside, and Redis ----------------------------------------------

  lemma ExternalTells<S>(cfgs: Configs, json: RedisWire.Json, cl: Cluster<S>, outs: seq<Out>, channel: string, raw: string)
    requires Shape(cfgs, cl) && TextsOk(json, cl, outs)
    ensures TextsOk(json, After(cfgs, cl, External(channel, raw)), outs + [Out(channel, raw)])
  {
    hide AllTrue, InboxTrue;
    var after := After(cfgs, cl, External(channel, raw));
    var more := outs + [Out(channel, raw)];
    var msg := Outside(cl, channel, raw);
    assert InboxTrue(more, [msg]) by { OutsideTrue(cl, outs, channel, raw); }
    forall j, s | j in after.nodes && s in after.nodes[j].socks ensures AllTrue(json, after, more, j, after.nodes[j].socks[s].offered) {
      assert AllTrue(json, cl, outs, j, cl.nodes[j].socks[s].offered);
      TrueStays(json, cl, after, outs, more, j, cl.nodes[j].socks[s].offered);
    }
    forall j | j in after.links ensures InboxTrue(more, after.links[j].inbox) {
      assert InboxTrue(outs, cl.links[j].inbox);
      InboxMore(outs, more, cl.links[j].inbox, [msg]);
    }
  }

  lemma OutsideTrue<S>(cl: Cluster<S>, outs: seq<Out>, channel: string, raw: string)
    requires |outs| == cl.external
    ensures InboxTrue(outs + [Out(channel, raw)], [Outside(cl, channel, raw)])
  {
  }

  lemma RedisTells<S>(cfgs: Configs, json: RedisWire.Json, cl: Cluster<S>, outs: seq<Out>, e: Action<S>)
    requires Shape(cfgs, cl) && TextsOk(json, cl, outs) && Can(cl, e) && (e.Process? || e.LinkDown? || e.LinkUp?)
    ensures TextsOk(json, After(cfgs, cl, e), outs)
  {
    hide AllTrue, InboxTrue, Replay;
    var after := After(cfgs, cl, e);
    assert after.nodes == cl.nodes;
    forall j, s | j in after.nodes && s in after.nodes[j].socks ensures AllTrue(json, after, outs, j, after.nodes[j].socks[s].offered) {
      assert AllTrue(json, cl, outs, j, cl.nodes[j].socks[s].offered);
      TrueStays(json, cl, after, outs, outs, j, cl.nodes[j].socks[s].offered);
    }
    forall j | j in after.links ensures InboxTrue(outs, after.links[j].inbox) {
      assert InboxTrue(outs, cl.links[j].inbox);
      InboxLess(outs, cl.links[j].inbox, after.links[j].inbox);
    }
  }

  // ---- reading -------------------------------------------------------------

  lemma DeliveredIsText(json: RedisWire.Json, data: string)
    requires RedisWire.Lawful(json)
    ensures RedisWire.Local(RedisWire.Delivered(json, data)) == RedisWire.Delivered(json, data)
  {
    var t := RedisWire.TrimSpace(data);
    assert |json.quote(t)| >= 2;
    if RedisWire.IsString(json, data) { assert |json.quote(json.unquote(t).value)| >= 2; }
    hide RedisWire.TrimSpace;
  }

  // What a message makes of itself on node `k`.
  lemma ReadIsTrue<S>(cfgs: Configs, json: RedisWire.Json, cl: Cluster<S>, outs: seq<Out>, k: string, msg: Message<S>, data: string)
    requires Ok(cfgs, json, cl) && RedisWire.Lawful(json) && k in cl.nodes
    requires Authentic(cl, msg) && InboxTrue(outs, [msg]) && RedisWire.Decode(json, k, msg.raw) == Some(data)
    ensures TrueTo(json, cl, outs, k, Meant(Some(Publication(msg.channel, data)), msg.pub).value)
  {
    hide Ok, Books, Flows, LinkOk, RedisWire.Decode, RedisWire.Delivered, RedisWire.EncodeForRedis, RedisWire.Readable, RedisWire.Lawful,
      RedisWire.Local;
    OkParts(cfgs, json, cl, k);
    if msg.pub.node == "" {
      assert [msg][0] == msg;
    } else {
      var j := msg.pub.node;
      OkParts(cfgs, json, cl, j);
      if j == k {
        OwnDropped(cfgs, json, cl, k, msg);
      } else {
        RedisWire.OtherNodeDelivers(json, j, k, msg.data);
        DeliveredIsText(json, msg.data);
      }
    }
  }

  lemma ReadAdds<S>(cfg: Config, n: Node<S>, msg: Message<S>, s: S)
    requires s in n.socks
    ensures s in ReadBy(cfg, n, msg).socks
    ensures var data := RedisWire.Decode(cfg.json, cfg.instanceID, msg.raw);
      Adds(n.socks[s], ReadBy(cfg, n, msg).socks[s], if data.Some? then Meant(Some(Publication(msg.channel, data.value)), msg.pub) else None)
  {
    hide RedisWire.Decode, PublishLocal, Adds, Meant;
    var data := RedisWire.Decode(cfg.json, cfg.instanceID, msg.raw);
    if data.Some? {
      PublishLocalAdds(cfg, n, Publication(msg.channel, data.value), msg.pub, s);
    } else {
      AddsNothing<S>(n.socks[s], n.socks[s], None);
    }
  }

  lemma ReadSockTrue<S>(cfgs: Configs, json: RedisWire.Json, cl: Cluster<S>, after: Cluster<S>, outs: seq<Out>, k: string, s: S)
    requires Ok(cfgs, json, cl) && RedisWire.Lawful(json) && TextsOk(json, cl, outs) && Can(cl, Read(k))
    requires HasRead(cfgs, cl, after, k) && Grown(cl, after) && k in cl.nodes && s in cl.nodes[k].socks && s in after.nodes[k].socks
    ensures AllTrue(json, after, outs, k, after.nodes[k].socks[s].offered)
  {
    hide Ok, NodeOk, LinkOk, InboxTrue, AllTrue, TrueTo, Adds, Authentic, RedisWire.Decode, ReadBy, Meant, Grown, RedisWire.Lawful,
      RedisWire.Readable;
    var msg := cl.links[k].inbox[0];
    OkParts(cfgs, json, cl, k);
    HeadAuthentic(cl, k);
    assert InboxTrue(outs, cl.links[k].inbox) && AllTrue(json, cl, outs, k, cl.nodes[k].socks[s].offered);
    InboxLess(outs, cl.links[k].inbox, [msg]);
    ReadAdds(cfgs[k], cl.nodes[k], msg, s);
    var data := RedisWire.Decode(json, k, msg.raw);
    var w := if data.Some? then Meant(Some(Publication(msg.channel, data.value)), msg.pub) else None;
    if data.Some? {
      ReadIsTrue(cfgs, json, cl, outs, k, msg, data.value);
      MeantIsPublish(Publication(msg.channel, data.value), msg.pub);
    }
    TrueAdded(json, cl, outs, k, cl.nodes[k].socks[s], after.nodes[k].socks[s], w);
    TrueStays(json, cl, after, outs, outs, k, after.nodes[k].socks[s].offered);
  }

  lemma HeadAuthentic<S>(cl: Cluster<S>, k: string)
    requires k in cl.nodes && k in cl.links && LinkOk(cl, k) && cl.links[k].inbox != []
    ensures Authentic(cl, cl.links[k].inbox[0])
  {
    hide Authentic, Replay, Counts, IdsOk;
  }

  lemma MeantIsPublish<S>(p: Publication, pub: PubId<S>)
    ensures Meant(Some(p), pub).Some? && Meant(Some(p), pub).value.PublishPacket?
  {
  }

  lemma ReadTells<S>(cfgs: Configs, json: RedisWire.Json, cl: Cluster<S>, outs: seq<Out>, k: string)
    requires Ok(cfgs, json, cl) && RedisWire.Lawful(json) && TextsOk(json, cl, outs) && Can(cl, Read(k))
    ensures TextsOk(json, After(cfgs, cl, Read(k)), outs)
  {
    hide AllTrue, InboxTrue, After, ReadBy, Grown, RedisWire.Lawful, Counts, Authentic;
    var after := After(cfgs, cl, Read(k));
    AfterRead(cfgs, cl, k);
    ReadCounts(cfgs, cl, after, k);
    ReadFans(cfgs[k], cl.nodes[k], cl.links[k].inbox[0]);
    forall j, s | j in after.nodes && s in after.nodes[j].socks ensures AllTrue(json, after, outs, j, after.nodes[j].socks[s].offered) {
      if j == k {
        ReadSockTrue(cfgs, json, cl, after, outs, k, s);
      } else {
        assert AllTrue(json, cl, outs, j, cl.nodes[j].socks[s].offered);
        TrueStays(json, cl, after, outs, outs, j, cl.nodes[j].socks[s].offered);
      }
    }
    forall j | j in after.links ensures InboxTrue(outs, after.links[j].inbox) {
      assert InboxTrue(outs, cl.links[j].inbox);
      if j == k { InboxLess(outs, cl.links[j].inbox, after.links[j].inbox); }
    }
  }

  // ---- runs ----------------------------------------------------------------

  lemma OutsOfOne<S>(outs: seq<Out>, e: Action<S>)
    ensures outs + Outs([e]) == if e.External? then outs + [Out(e.channel, e.raw)] else outs
  {
    assert [e][1..] == [];
  }

  lemma EventTells<S>(cfgs: Configs, json: RedisWire.Json, cl: Cluster<S>, outs: seq<Out>, e: Action<S>)
    requires Ok(cfgs, json, cl) && RedisWire.Lawful(json) && TextsOk(json, cl, outs) && Can(cl, e)
    ensures TextsOk(json, After(cfgs, cl, e), outs + Outs([e]))
  {
    hide Ok, RedisWire.Lawful, TextsOk, Outs, After, Can, Shape;
    OutsOfOne(outs, e);
    OkShape(cfgs, json, cl);
    match e
    case NodeStep(k, step, delivered) => NodeStepTells(cfgs, json, cl, outs, k, step, delivered);
    case External(channel, raw) => ExternalTells(cfgs, json, cl, outs, channel, raw);
    case Read(k) => ReadTells(cfgs, json, cl, outs, k);
    case _ => RedisTells(cfgs, json, cl, outs, e);
  }

  lemma {:induction false} RunTells<S>(cfgs: Configs, json: RedisWire.Json, cl: Cluster<S>, outs: seq<Out>, es: seq<Action<S>>)
    requires Ok(cfgs, json, cl) && RedisWire.Lawful(json) && TextsOk(json, cl, outs) && Allowed(cfgs, cl, es)
    ensures Ok(cfgs, json, Ran(cfgs, cl, es)) && TextsOk(json, Ran(cfgs, cl, es), outs + Outs(es))
    decreases |es|
  {
    hide Ok, RedisWire.Lawful, TextsOk, After;
    if es == [] {
      assert outs + Outs(es) == outs;
    } else {
      var e := es[0];
      OkShape(cfgs, json, cl);
      EventKeeps(cfgs, json, cl, e);
      EventTells(cfgs, json, cl, outs, e);
      RunTells(cfgs, json, After(cfgs, cl, e), outs + Outs([e]), es[1..]);
      assert [e][1..] == [];
      assert outs + Outs([e]) + Outs(es[1..]) == outs + Outs(es);
    }
  }

  // After every run, on whichever socket of whichever node: a packet of a publication
  // carries the channel and the data of the message it is named after. On the node it
  // was published on that is the data itself, on any other the data as delivered, and
  // what came from outside is what was published there.
  lemma PacketsTell<S>(cfgs: Configs, json: RedisWire.Json, es: seq<Action<S>>, k: string, s: S, i: nat)
    requires Usable(cfgs, json) && RedisWire.Lawful(json) && Allowed(cfgs, NewCluster<S>(cfgs), es)
    requires var cl := Ran(cfgs, NewCluster<S>(cfgs), es);
      k in cl.nodes && s in cl.nodes[k].socks && i < |cl.nodes[k].socks[s].offered| && cl.nodes[k].socks[s].offered[i].PublishPacket?
    ensures
      var cl := Ran(cfgs, NewCluster<S>(cfgs), es);
      var PublishPacket(channel, data, p) := cl.nodes[k].socks[s].offered[i];
      if p.node == ""
      then p.serial < |Outs(es)| && channel == Outs(es)[p.serial].channel
           && RedisWire.Decode(json, k, Outs(es)[p.serial].raw).Some?
           && (var d := RedisWire.Decode(json, k, Outs(es)[p.serial].raw).value; data == if d == "" then "null" else d)
      else p.node in cl.nodes && p.serial < |cl.nodes[p.node].sent|
           && var msg := cl.nodes[p.node].sent[p.serial];
              channel == msg.channel && data ==
                if p.node != k then RedisWire.Delivered(json, msg.data) else if msg.data == "" then "null" else msg.data
  {
    hide Ok, Ran, Allowed, RedisWire.Decode, RedisWire.Delivered, RedisWire.Lawful, Outs;
    var start := NewCluster<S>(cfgs);
    NewOk<S>(cfgs, json);
    assert TextsOk(json, start, []);
    RunTells(cfgs, json, start, [], es);
    assert [] + Outs(es) == Outs(es);
    var cl := Ran(cfgs, start, es);
    assert AllTrue(json, cl, Outs(es), k, cl.nodes[k].socks[s].offered);
    assert TrueTo(json, cl, Outs(es), k, cl.nodes[k].socks[s].offered[i]);
  }
}
