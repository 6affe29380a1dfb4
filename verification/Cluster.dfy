// Several server processes and one Redis. A step is one step of a process, one
// command that Redis carries out, one message that a process reads, a publication
// from outside (PHP), or a connection to Redis that breaks or comes back.
module Cluster {
  import opened Prelude
  import opened Node
  import opened NodeRuns
  import RedisWire

  // The subscriber connection of one node: what Redis has it subscribed to, the
  // commands on their way to Redis and the messages on their way to the node.
  datatype Link<S> = Link(up: bool, wire: set<string>, pending: seq<Command>, inbox: seq<Message<S>>)

  datatype Cluster<S> = Cluster(nodes: map<string, Node<S>>, links: map<string, Link<S>>, external: nat)

  datatype Action<S> =
    | NodeStep(k: string, step: Step<S>, delivered: bool)
    | External(channel: string, raw: string)
    | Process(k: string)
    | Read(k: string)
    | LinkDown(k: string, kept: nat)
    | LinkUp(k: string)

  type Configs = map<string, Config>

  // Every node has a usable id of its own, and they agree on what JSON is.
  ghost predicate Usable(cfgs: Configs, json: RedisWire.Json) {
    && (forall k | k in cfgs :: cfgs[k].instanceID == k && k != "" && RedisWire.Readable(k) && cfgs[k].json == json)
  }

  ghost predicate Shape<S>(cfgs: Configs, cl: Cluster<S>) {
    cl.nodes.Keys == cfgs.Keys && cl.links.Keys == cfgs.Keys
  }

  ghost predicate Can<S>(cl: Cluster<S>, e: Action<S>) {
    match e
    case NodeStep(k, step, _) => k in cl.nodes && !step.Deliver? && Enabled(cl.nodes[k], step)
    case External(_, _) => true
    case Process(k) => k in cl.links && cl.links[k].up && cl.links[k].pending != []
    case Read(k) => k in cl.links && cl.links[k].inbox != []
    case LinkDown(k, kept) => k in cl.links && kept <= |cl.links[k].inbox|
    case LinkUp(k) => k in cl.links && !cl.links[k].up
  }

  // Redis hands a message to every connection subscribed at that moment.
  function Hand<S>(link: Link<S>, msgs: seq<Message<S>>): Link<S> {
    if link.up && msgs != [] && msgs[0].channel in link.wire then link.(inbox := link.inbox + msgs) else link
  }

  // The connection after the commands of one step, on their way while it is up.
  function Told<S>(link: Link<S>, commands: seq<Command>): Link<S> {
    if link.up then link.(pending := link.pending + commands) else link
  }

  function Outside<S>(cl: Cluster<S>, channel: string, raw: string): Message<S> {
    Message(channel, raw, raw, PubId("", None, cl.external))
  }

  function ReadBy<S>(cfg: Config, n: Node<S>, msg: Message<S>): Node<S> {
    var data := RedisWire.Decode(cfg.json, cfg.instanceID, msg.raw);
    if data.Some? then PublishLocal(cfg, n, msg.channel, data.value, msg.pub) else n
  }

  function Relink<S>(cl: Cluster<S>, k: string, link: Link<S>): Cluster<S> { cl.(links := cl.links[k := link]) }

  // Redis carries out the first command on its way.
  function Processed<S>(link: Link<S>): Link<S>
    requires link.pending != []
  {
    link.(wire := Replay(link.wire, link.pending[..1]), pending := link.pending[1..])
  }

  ghost function After<S>(cfgs: Configs, cl: Cluster<S>, e: Action<S>): Cluster<S>
    requires Shape(cfgs, cl) && Can(cl, e)
  {
    match e
    case NodeStep(k, step, delivered) =>
      var n := cl.nodes[k];
      var m := Next(cfgs[k], n, step);
      var commands := m.commands[if |n.commands| <= |m.commands| then |n.commands| else 0..];
      var msgs := if delivered then StepSent(cfgs[k], n, step) else [];
      cl.(nodes := cl.nodes[k := m],
          links := map j | j in cl.links :: Hand(if j == k then Told(cl.links[j], commands) else cl.links[j], msgs))
    case External(channel, raw) =>
      var msg := Outside(cl, channel, raw);
      cl.(links := map j | j in cl.links :: Hand(cl.links[j], [msg]), external := cl.external + 1)
    case Process(k) => Relink(cl, k, Processed(cl.links[k]))
    case Read(k) =>
      var link := cl.links[k];
      cl.(nodes := cl.nodes[k := ReadBy(cfgs[k], cl.nodes[k], link.inbox[0])],
          links := cl.links[k := link.(inbox := link.inbox[1..])])
    case LinkDown(k, kept) => Relink(cl, k, Link(false, {}, [], cl.links[k].inbox[..kept]))
    case LinkUp(k) => Relink(cl, k, Link(true, cl.nodes[k].subscribed, [], cl.links[k].inbox))
  }

  // ---- identities in order -------------------------------------------------

  predicate Before<S>(p: PubId<S>, q: PubId<S>) { p.node == q.node ==> p.serial < q.serial }

  ghost predicate Ordered<S>(ids: seq<PubId<S>>) {
    forall i, j | 0 <= i < j < |ids| :: Before(ids[i], ids[j])
  }

  predicate Known<S>(counts: map<string, nat>, p: PubId<S>) { p.node in counts && p.serial < counts[p.node] }

  ghost predicate AllKnown<S>(counts: map<string, nat>, ids: seq<PubId<S>>) {
    forall i | 0 <= i < |ids| :: Known(counts, ids[i])
  }

  // What is still to come from other nodes is newer than what there is.
  ghost predicate Clear<S>(got: seq<PubId<S>>, ids: seq<PubId<S>>, k: string) {
    forall i, j | 0 <= i < |got| && 0 <= j < |ids| && ids[j].node != k :: Before(got[i], ids[j])
  }

  // What a socket of node `k` got, with `ids` still to be read there.
  ghost predicate GotOk<S>(counts: map<string, nat>, k: string, got: seq<PubId<S>>, ids: seq<PubId<S>>) {
    Ordered(got) && AllKnown(counts, got) && Clear(got, ids, k)
  }

  ghost predicate IdsOk<S>(counts: map<string, nat>, ids: seq<PubId<S>>) {
    Ordered(ids) && AllKnown(counts, ids)
  }

  // A new publication `p`: the next of its node.
  ghost predicate Fresh<S>(counts: map<string, nat>, p: PubId<S>) { p.node in counts && p.serial == counts[p.node] }

  lemma FreshAppended<S>(counts: map<string, nat>, ids: seq<PubId<S>>, p: PubId<S>)
    requires IdsOk(counts, ids) && Fresh(counts, p)
    ensures IdsOk(counts[p.node := p.serial + 1], ids + [p])
    ensures IdsOk(counts[p.node := p.serial + 1], ids)
  {
  }

  lemma FreshGot<S>(counts: map<string, nat>, k: string, got: seq<PubId<S>>, ids: seq<PubId<S>>, p: PubId<S>)
    requires GotOk(counts, k, got, ids) && Fresh(counts, p)
    ensures var more := counts[p.node := p.serial + 1];
      && GotOk(more, k, got, ids) && GotOk(more, k, got, ids + [p])
      && (p.node == k ==> GotOk(more, k, got + [p], ids) && GotOk(more, k, got + [p], ids + [p]))
  {
  }

  lemma HeadTaken<S>(counts: map<string, nat>, k: string, got: seq<PubId<S>>, ids: seq<PubId<S>>)
    requires GotOk(counts, k, got, ids) && IdsOk(counts, ids) && ids != []
    ensures GotOk(counts, k, got, ids[1..]) && IdsOk(counts, ids[1..])
    ensures ids[0].node != k ==> GotOk(counts, k, got + [ids[0]], ids[1..])
  {
  }

  // ---- the invariant -------------------------------------------------------

  function Ids<S>(msgs: seq<Message<S>>): (ids: seq<PubId<S>>)
    ensures |ids| == |msgs| && forall i | 0 <= i < |ids| :: ids[i] == msgs[i].pub
  {
    seq(|msgs|, i requires 0 <= i < |msgs| => msgs[i].pub)
  }

  // How many publications each node, and the outside, has made.
  function Counts<S>(cl: Cluster<S>): map<string, nat> {
    (map k | k in cl.nodes :: |cl.nodes[k].sent|)["" := cl.external]
  }

  // A message tells truly who made it and of what.
  ghost predicate Authentic<S>(cl: Cluster<S>, msg: Message<S>) {
    msg.pub.node == "" || (msg.pub.node in cl.nodes && msg.pub.serial < |cl.nodes[msg.pub.node].sent|
                           && msg == cl.nodes[msg.pub.node].sent[msg.pub.serial])
  }

  ghost predicate LinkOk<S>(cl: Cluster<S>, k: string)
    requires k in cl.nodes && k in cl.links
  {
    var link := cl.links[k];
    && (link.up ==> Replay(link.wire, link.pending) == cl.nodes[k].subscribed)
    && IdsOk(Counts(cl), Ids(link.inbox))
    && forall i | 0 <= i < |link.inbox| :: Authentic(cl, link.inbox[i])
  }

  // What a node has sent is its own publications, each once, in the order it made them.
  ghost predicate SentOk<S>(cfg: Config, n: Node<S>) {
    forall i | 0 <= i < |n.sent| ::
      && n.sent[i].pub.node == cfg.instanceID && n.sent[i].pub.serial == i && n.sent[i].pub.source.Some?
      && n.sent[i].raw == RedisWire.EncodeForRedis(cfg.json, cfg.instanceID, n.sent[i].data)
  }

  ghost predicate GotsOk<S>(cl: Cluster<S>, k: string)
    requires k in cl.nodes && k in cl.links
  {
    forall s | s in cl.nodes[k].socks ::
      GotOk(Counts(cl), k, Pubs(cl.nodes[k].socks[s].offered), Ids(cl.links[k].inbox))
  }

  ghost predicate NodeOk<S>(cfg: Config, n: Node<S>) { Books(cfg, n) && Flows(cfg, n) && SentOk(cfg, n) }

  ghost predicate Ok<S>(cfgs: Configs, json: RedisWire.Json, cl: Cluster<S>) {
    && Usable(cfgs, json) && Shape(cfgs, cl)
    && (forall k | k in cl.nodes :: NodeOk(cfgs[k], cl.nodes[k]))
    && (forall k | k in cl.nodes :: LinkOk(cl, k))
    && (forall k | k in cl.nodes :: GotsOk(cl, k))
  }

  lemma OkShape<S>(cfgs: Configs, json: RedisWire.Json, cl: Cluster<S>)
    requires Ok(cfgs, json, cl)
    ensures Shape(cfgs, cl)
  {
    hide Usable, NodeOk, LinkOk, GotsOk;
  }

  // ---- steps of one node ---------------------------------------------------

  // The messages of one step, and their one identity.
  lemma SentOfStep<S>(cfg: Config, n: Node<S>, step: Step<S>)
    requires Enabled(n, step) && !step.Deliver?
    ensures var msgs := StepSent(cfg, n, step);
      && |msgs| <= 1 && StepPub(cfg, n, step) == Ids(msgs)
      && (msgs != [] ==>
           && msgs[0].pub.node == cfg.instanceID && msgs[0].pub.serial == |n.sent| && msgs[0].pub.source.Some?
           && msgs[0].raw == RedisWire.EncodeForRedis(cfg.json, cfg.instanceID, msgs[0].data))
  {
  }

  lemma StepNodeOk<S>(cfg: Config, n: Node<S>, step: Step<S>)
    requires NodeOk(cfg, n) && Enabled(n, step) && !step.Deliver?
    ensures NodeOk(cfg, Next(cfg, n, step)) && Stepped(cfg, n, Next(cfg, n, step), step)
  {
    hide Books, Flows, Next, StepSent, StepPub;
    var m := Next(cfg, n, step);
    StepKeeps(cfg, n, step);
    StepFlows(cfg, n, m, step);
    SentOfStep(cfg, n, step);
    assert Stepped(cfg, n, m, step) && m.sent == n.sent + StepSent(cfg, n, step);
    forall i | 0 <= i < |m.sent| ensures m.sent[i].pub.node == cfg.instanceID && m.sent[i].pub.serial == i
      && m.sent[i].pub.source.Some? && m.sent[i].raw == RedisWire.EncodeForRedis(cfg.json, cfg.instanceID, m.sent[i].data) {
      if i < |n.sent| { assert m.sent[i] == n.sent[i]; } else { assert m.sent[i] == StepSent(cfg, n, step)[0]; }
    }
  }

  lemma {:induction false} ReplayMore(channels: set<string>, a: seq<Command>, b: seq<Command>)
    ensures Replay(channels, a + b) == Replay(Replay(channels, a), b)
  {
    if b == [] {
      assert a + b == a;
    } else {
      var last := b[|b| - 1];
      var front := b[..|b| - 1];
      assert a + b == (a + front) + [last] && b == front + [last];
      ReplayOne(channels, a + front, last);
      ReplayOne(Replay(channels, a), front, last);
      ReplayMore(channels, a, front);
    }
  }

  // What Redis will have the node subscribed to, once it has done what it was told.
  lemma CommandsFollow<S>(cfg: Config, n: Node<S>, m: Node<S>, wire: set<string>, pending: seq<Command>)
    requires Books(cfg, n) && Books(cfg, m) && n.commands <= m.commands
    requires Replay(wire, pending) == n.subscribed
    ensures Replay(wire, pending + m.commands[|n.commands|..]) == m.subscribed
  {
    assert Mirrors(n) && Mirrors(m);
    hide Books;
    var more := m.commands[|n.commands|..];
    assert m.commands == n.commands + more;
    ReplayMore({}, n.commands, more);
    ReplayMore(wire, pending, more);
  }

  // ---- a node's step in the cluster ----------------------------------------

  ghost predicate Grown<S>(cl: Cluster<S>, after: Cluster<S>) {
    after.nodes.Keys == cl.nodes.Keys && forall k | k in cl.nodes :: cl.nodes[k].sent <= after.nodes[k].sent
  }

  lemma AuthenticStays<S>(cl: Cluster<S>, after: Cluster<S>, msg: Message<S>)
    requires Grown(cl, after) && Authentic(cl, msg)
    ensures Authentic(after, msg)
  {
  }

  // The publications of a step and the counts before and after it.
  ghost predicate Counted<S>(cl: Cluster<S>, after: Cluster<S>, msgs: seq<Message<S>>) {
    && |msgs| <= 1
    && (msgs == [] ==> Counts(after) == Counts(cl))
    && (msgs != [] ==> Fresh(Counts(cl), msgs[0].pub)
                       && Counts(after) == Counts(cl)[msgs[0].pub.node := msgs[0].pub.serial + 1]
                       && Authentic(after, msgs[0]))
  }

  lemma HandedLink<S>(cl: Cluster<S>, after: Cluster<S>, k: string, link: Link<S>, msgs: seq<Message<S>>)
    requires k in cl.nodes && k in cl.links && k in after.links && k in after.nodes
    requires LinkOk(cl, k) && Grown(cl, after) && Counted(cl, after, msgs)
    requires link.inbox == cl.links[k].inbox && (link.up ==> Replay(link.wire, link.pending) == after.nodes[k].subscribed)
    requires after.links[k] == Hand(link, msgs) || after.links[k] == link
    ensures LinkOk(after, k)
  {
    var inbox := cl.links[k].inbox;
    var now := after.links[k].inbox;
    hide Counts, Replay, Fresh;
    if msgs != [] { FreshAppended(Counts(cl), Ids(inbox), msgs[0].pub); }
    hide Ordered, AllKnown;
    assert now == inbox || (msgs != [] && now == inbox + msgs && Ids(now) == Ids(inbox) + [msgs[0].pub]);
    forall i | 0 <= i < |now| ensures Authentic(after, now[i]) {
      if i < |inbox| { AuthenticStays(cl, after, inbox[i]); } else { assert now[i] == msgs[0]; }
    }
  }

  lemma HandedGots<S>(cl: Cluster<S>, after: Cluster<S>, k: string, link: Link<S>, msgs: seq<Message<S>>, got: seq<PubId<S>>, now: seq<PubId<S>>)
    requires k in cl.links && k in after.links
    requires Counted(cl, after, msgs)
    requires link.inbox == cl.links[k].inbox && (after.links[k] == Hand(link, msgs) || after.links[k] == link)
    requires GotOk(Counts(cl), k, got, Ids(cl.links[k].inbox))
    requires now == got || (msgs != [] && msgs[0].pub.node == k && now == got + Ids(msgs))
    ensures GotOk(Counts(after), k, now, Ids(after.links[k].inbox))
  {
    var inbox := cl.links[k].inbox;
    var later := after.links[k].inbox;
    hide Counts, Fresh, Authentic;
    assert later == inbox || (msgs != [] && later == inbox + msgs && Ids(later) == Ids(inbox) + [msgs[0].pub]);
    if msgs != [] {
      assert Ids(msgs) == [msgs[0].pub];
      FreshGot(Counts(cl), k, got, Ids(inbox), msgs[0].pub);
    }
  }

  lemma CountsOfNode<S>(cl: Cluster<S>, after: Cluster<S>, k: string, m: Node<S>)
    requires k in cl.nodes && k != ""
    requires after.nodes == cl.nodes[k := m] && after.external == cl.external
    ensures Counts(after) == Counts(cl)[k := |m.sent|]
    ensures Counts(cl)[k] == |cl.nodes[k].sent|
  {
    assert after.nodes.Keys == cl.nodes.Keys;
  }

  lemma CountedOfNode<S>(cl: Cluster<S>, after: Cluster<S>, k: string, m: Node<S>, msgs: seq<Message<S>>)
    requires k in cl.nodes && k != ""
    requires after.nodes == cl.nodes[k := m] && after.external == cl.external
    requires m.sent == cl.nodes[k].sent + msgs && |msgs| <= 1
    requires msgs != [] ==> msgs[0].pub.node == k && msgs[0].pub.serial == |cl.nodes[k].sent|
    ensures Grown(cl, after) && Counted(cl, after, msgs)
  {
    CountsOfNode(cl, after, k, m);
    assert k in Counts(cl);
    hide Counts;
    assert after.nodes.Keys == cl.nodes.Keys;
    var before := Counts(cl);
    if msgs == [] { assert before[k := before[k]] == before; }
  }

  lemma NodeStepCounted<S>(cfgs: Configs, json: RedisWire.Json, cl: Cluster<S>, k: string, step: Step<S>, delivered: bool)
    requires Ok(cfgs, json, cl) && Can(cl, NodeStep(k, step, delivered))
    ensures var after := After(cfgs, cl, NodeStep(k, step, delivered));
      Grown(cl, after) && Counted(cl, after, StepSent(cfgs[k], cl.nodes[k], step))
  {
    hide Enabled, NodeOk, Next, StepSent, Books, NodeFeeds, LinkOk, GotsOk, Counted, Grown, StepPub;
    assert NodeOk(cfgs[k], cl.nodes[k]) && k != "" && cfgs[k].instanceID == k;
    hide Ok;
    StepNodeOk(cfgs[k], cl.nodes[k], step);
    SentOfStep(cfgs[k], cl.nodes[k], step);
    CountedOfNode(cl, After(cfgs, cl, NodeStep(k, step, delivered)), k, Next(cfgs[k], cl.nodes[k], step), StepSent(cfgs[k], cl.nodes[k], step));
  }

  lemma NodeStepLinks<S>(cfgs: Configs, json: RedisWire.Json, cl: Cluster<S>, k: string, step: Step<S>, delivered: bool, j: string)
    requires Ok(cfgs, json, cl) && Can(cl, NodeStep(k, step, delivered)) && j in cl.nodes
    ensures LinkOk(After(cfgs, cl, NodeStep(k, step, delivered)), j)
  {
    hide Enabled, NodeOk, Next, StepSent, NodeFeeds, Counted, Grown, StepPub, GotsOk, Hand, IdsOk, Authentic, Replay, Counts, Mirrors, HubOk;
    var after := After(cfgs, cl, NodeStep(k, step, delivered));
    NodeStepCounted(cfgs, json, cl, k, step, delivered);
    var n := cl.nodes[k];
    var m := Next(cfgs[k], n, step);
    assert NodeOk(cfgs[k], n) && LinkOk(cl, j);
    NodeOkParts(cfgs[k], n);
    StepNodeOk(cfgs[k], n, step);
    NodeOkParts(cfgs[k], m);
    hide Ok, Books;
    var link := if j == k then Told(cl.links[j], m.commands[|n.commands|..]) else cl.links[j];
    if j == k && cl.links[k].up { CommandsFollow(cfgs[k], n, m, cl.links[k].wire, cl.links[k].pending); }
    var msgs := StepSent(cfgs[k], n, step);
    assert after.links[j] == Hand(link, if delivered then msgs else []);
    HandedSome(link, msgs, delivered);
    HandedLink(cl, after, j, link, msgs);
  }

  lemma HandedSome<S>(link: Link<S>, msgs: seq<Message<S>>, delivered: bool)
    ensures var after := Hand(link, if delivered then msgs else []); after == Hand(link, msgs) || after == link
  {
  }

  lemma NodeOkParts<S>(cfg: Config, n: Node<S>)
    requires NodeOk(cfg, n)
    ensures Books(cfg, n) && Flows(cfg, n) && SentOk(cfg, n)
  {
  }

  lemma NodeStepGots<S>(cfgs: Configs, json: RedisWire.Json, cl: Cluster<S>, k: string, step: Step<S>, delivered: bool, j: string)
    requires Ok(cfgs, json, cl) && Can(cl, NodeStep(k, step, delivered)) && j in cl.nodes
    ensures GotsOk(After(cfgs, cl, NodeStep(k, step, delivered)), j)
  {
    hide Enabled, NodeOk, Next, StepSent, Counted, Grown, StepPub, LinkOk, Hand, GotOk, Books, Counts, Pubs, Flow;
    var after := After(cfgs, cl, NodeStep(k, step, delivered));
    NodeStepCounted(cfgs, json, cl, k, step, delivered);
    var n := cl.nodes[k];
    var m := Next(cfgs[k], n, step);
    var msgs := StepSent(cfgs[k], n, step);
    assert NodeOk(cfgs[k], n) && GotsOk(cl, j) && cfgs[k].instanceID == k;
    StepNodeOk(cfgs[k], n, step);
    SentOfStep(cfgs[k], n, step);
    assert Stepped(cfgs[k], n, m, step);
    hide Ok, Stepped;
    var link := if j == k then Told(cl.links[j], m.commands[if |n.commands| <= |m.commands| then |n.commands| else 0..]) else cl.links[j];
    assert after.links[j] == Hand(link, if delivered then msgs else []);
    HandedSome(link, msgs, delivered);
    forall s | s in after.nodes[j].socks
      ensures GotOk(Counts(after), j, Pubs(after.nodes[j].socks[s].offered), Ids(after.links[j].inbox))
    {
      var now := Pubs(after.nodes[j].socks[s].offered);
      if s in cl.nodes[j].socks {
        var got := Pubs(cl.nodes[j].socks[s].offered);
        assert now == got || (j == k && now == got + Ids(msgs)) by {
          if j == k { SteppedGot(cfgs[k], n, m, step, s); }
        }
        if now == got + Ids(msgs) && msgs == [] { assert now == got; }
        HandedGots(cl, after, j, link, msgs, got, now);
      } else {
        SteppedNew(cfgs[k], n, m, step, s);
        NothingGot<S>(Counts(after), j, Ids(after.links[j].inbox));
      }
    }
  }

  lemma SteppedGot<S>(cfg: Config, n: Node<S>, m: Node<S>, step: Step<S>, s: S)
    requires Stepped(cfg, n, m, step) && s in n.socks
    ensures s in m.socks
    ensures Pubs(m.socks[s].offered) == Pubs(n.socks[s].offered)
         || Pubs(m.socks[s].offered) == Pubs(n.socks[s].offered) + StepPub(cfg, n, step)
  {
    hide Books, Flow, Pubs, StepPub;
  }

  lemma SteppedNew<S>(cfg: Config, n: Node<S>, m: Node<S>, step: Step<S>, s: S)
    requires Stepped(cfg, n, m, step) && s in m.socks && s !in n.socks
    ensures Pubs(m.socks[s].offered) == []
  {
    hide Books, NodeFeeds;
  }

  lemma NothingGot<S>(counts: map<string, nat>, k: string, ids: seq<PubId<S>>)
    ensures GotOk(counts, k, [], ids)
  {
  }

  lemma NodeStepKeeps<S>(cfgs: Configs, json: RedisWire.Json, cl: Cluster<S>, k: string, step: Step<S>, delivered: bool)
    requires Ok(cfgs, json, cl) && Can(cl, NodeStep(k, step, delivered))
    ensures Ok(cfgs, json, After(cfgs, cl, NodeStep(k, step, delivered)))
  {
    hide Enabled, NodeOk, Next, StepSent, LinkOk, GotsOk, Hand, Stepped;
    var after := After(cfgs, cl, NodeStep(k, step, delivered));
    forall j | j in after.nodes ensures NodeOk(cfgs[j], after.nodes[j]) && LinkOk(after, j) && GotsOk(after, j) {
      NodeStepLinks(cfgs, json, cl, k, step, delivered, j);
      NodeStepGots(cfgs, json, cl, k, step, delivered, j);
      assert NodeOk(cfgs[j], cl.nodes[j]);
      if j == k { StepNodeOk(cfgs[k], cl.nodes[k], step); }
    }
  }

  // ---- Redis and the outside -----------------------------------------------

  lemma ExternalCounted<S>(cfgs: Configs, cl: Cluster<S>, channel: string, raw: string)
    requires Shape(cfgs, cl)
    ensures var after := After(cfgs, cl, External(channel, raw));
      after.nodes == cl.nodes && Grown(cl, after) && Counted(cl, after, [Outside(cl, channel, raw)])
  {
    var after := After(cfgs, cl, External(channel, raw));
    assert Counts(after) == Counts(cl)["" := cl.external + 1];
    assert Counts(cl)[""] == cl.external;
  }

  // Nothing but the inbox of node `j` may have changed there.
  lemma HandedBoth<S>(cl: Cluster<S>, after: Cluster<S>, j: string, msgs: seq<Message<S>>)
    requires j in cl.nodes && j in cl.links && j in after.links && after.nodes == cl.nodes
    requires LinkOk(cl, j) && GotsOk(cl, j) && Grown(cl, after) && Counted(cl, after, msgs)
    requires after.links[j] == Hand(cl.links[j], msgs)
    ensures LinkOk(after, j) && GotsOk(after, j)
  {
    hide Counts, Hand, Counted, Grown, GotOk;
    HandedLink(cl, after, j, cl.links[j], msgs);
    hide LinkOk;
    forall s | s in after.nodes[j].socks
      ensures GotOk(Counts(after), j, Pubs(after.nodes[j].socks[s].offered), Ids(after.links[j].inbox))
    {
      var got := Pubs(cl.nodes[j].socks[s].offered);
      HandedGots(cl, after, j, cl.links[j], msgs, got, got);
    }
  }

  lemma ExternalKeeps<S>(cfgs: Configs, json: RedisWire.Json, cl: Cluster<S>, channel: string, raw: string)
    requires Ok(cfgs, json, cl)
    ensures Ok(cfgs, json, After(cfgs, cl, External(channel, raw)))
  {
    hide Counts, NodeOk, Hand, Counted, Grown, LinkOk, GotsOk;
    var after := After(cfgs, cl, External(channel, raw));
    ExternalCounted(cfgs, cl, channel, raw);
    forall j | j in after.nodes ensures LinkOk(after, j) && GotsOk(after, j) {
      assert LinkOk(cl, j) && GotsOk(cl, j);
      HandedBoth(cl, after, j, [Outside(cl, channel, raw)]);
    }
  }

  ghost predicate Follows<S>(n: Node<S>, link: Link<S>) {
    link.up ==> Replay(link.wire, link.pending) == n.subscribed
  }

  lemma CutBoth<S>(cl: Cluster<S>, after: Cluster<S>, k: string, link: Link<S>)
    requires k in cl.nodes && k in cl.links && after == cl.(links := cl.links[k := link])
    requires LinkOk(cl, k) && GotsOk(cl, k)
    requires link.inbox <= cl.links[k].inbox && Follows(cl.nodes[k], link)
    ensures LinkOk(after, k) && GotsOk(after, k)
  {
    var inbox := cl.links[k].inbox;
    assert Counts(after) == Counts(cl);
    assert Ids(link.inbox) == Ids(inbox)[..|link.inbox|];
    hide Counts, IdsOk, GotOk, Replay;
    PrefixOk(Counts(cl), Ids(inbox), |link.inbox|);
    forall i | 0 <= i < |link.inbox| ensures Authentic(after, link.inbox[i]) { assert link.inbox[i] == inbox[i]; }
    forall s | s in after.nodes[k].socks
      ensures GotOk(Counts(after), k, Pubs(after.nodes[k].socks[s].offered), Ids(link.inbox))
    {
      PrefixGot(Counts(cl), k, Pubs(cl.nodes[k].socks[s].offered), Ids(inbox), |link.inbox|);
    }
  }

  lemma Untouched<S>(cl: Cluster<S>, after: Cluster<S>, j: string)
    requires j in cl.nodes && j in cl.links && j in after.links && LinkOk(cl, j) && GotsOk(cl, j)
    requires after.nodes == cl.nodes && after.external == cl.external && after.links[j] == cl.links[j]
    ensures LinkOk(after, j) && GotsOk(after, j)
  {
    assert Counts(after) == Counts(cl);
  }

  // Only the connection of node `k` has changed, and its inbox has not grown.
  lemma LinkKeeps<S>(cfgs: Configs, json: RedisWire.Json, cl: Cluster<S>, k: string, link: Link<S>)
    requires Ok(cfgs, json, cl) && k in cl.links
    requires link.inbox <= cl.links[k].inbox && Follows(cl.nodes[k], link)
    ensures Ok(cfgs, json, Relink(cl, k, link))
  {
    hide NodeOk, LinkOk, GotsOk;
    var after := Relink(cl, k, link);
    forall j | j in after.nodes ensures LinkOk(after, j) && GotsOk(after, j) {
      assert LinkOk(cl, j) && GotsOk(cl, j);
      if j == k { CutBoth(cl, after, k, link); } else { Untouched(cl, after, j); }
    }
  }

  lemma PrefixOk<S>(counts: map<string, nat>, ids: seq<PubId<S>>, n: nat)
    requires IdsOk(counts, ids) && n <= |ids|
    ensures IdsOk(counts, ids[..n])
  {
  }

  lemma PrefixGot<S>(counts: map<string, nat>, k: string, got: seq<PubId<S>>, ids: seq<PubId<S>>, n: nat)
    requires GotOk(counts, k, got, ids) && n <= |ids|
    ensures GotOk(counts, k, got, ids[..n])
  {
  }

  lemma RedisKeeps<S>(cfgs: Configs, json: RedisWire.Json, cl: Cluster<S>, e: Action<S>)
    requires Ok(cfgs, json, cl) && Can(cl, e) && (e.Process? || e.LinkDown? || e.LinkUp?)
    ensures Ok(cfgs, json, After(cfgs, cl, e))
  {
    hide Replay, Relink, NodeOk, GotsOk;
    assert LinkOk(cl, e.k);
    hide Ok, LinkOk;
    var link := cl.links[e.k];
    match e
    case Process(k) =>
      ProcessedFollows(cl, k);
      hide Processed, Follows;
      LinkKeeps(cfgs, json, cl, k, Processed(link));
    case LinkDown(k, kept) => LinkKeeps(cfgs, json, cl, k, Link(false, {}, [], link.inbox[..kept]));
    case LinkUp(k) =>
      ReplayNone(cl.nodes[k].subscribed);
      LinkKeeps(cfgs, json, cl, k, Link(true, cl.nodes[k].subscribed, [], link.inbox));
  }

  lemma ReplayNone(channels: set<string>)
    ensures Replay(channels, []) == channels
  {
  }

  lemma ProcessedFollows<S>(cl: Cluster<S>, k: string)
    requires k in cl.nodes && k in cl.links && LinkOk(cl, k) && cl.links[k].pending != []
    ensures Follows(cl.nodes[k], Processed(cl.links[k]))
  {
    var link := cl.links[k];
    hide Replay;
    ReplayMore(link.wire, link.pending[..1], link.pending[1..]);
    assert link.pending[..1] + link.pending[1..] == link.pending;
  }

  // ---- reading -------------------------------------------------------------

  lemma ReadNodeOk<S>(cfg: Config, n: Node<S>, msg: Message<S>)
    requires NodeOk(cfg, n)
    ensures var m := ReadBy(cfg, n, msg);
      && NodeOk(cfg, m) && Fanned(n, m) && m.sent == n.sent
      && NodeFeeds(cfg, n, m, [msg.pub])
      && (RedisWire.Decode(cfg.json, cfg.instanceID, msg.raw).None? ==> m == n)
  {
    NodeOkParts(cfg, n);
    var data := RedisWire.Decode(cfg.json, cfg.instanceID, msg.raw);
    var m := ReadBy(cfg, n, msg);
    hide RedisWire.Decode, Books, Flow, Pubs, PublishLocal;
    if data.Some? {
      PublishLocalFeeds(cfg, n, msg.channel, data.value, msg.pub);
      FannedBooks(cfg, n, m);
      assert m.sent == n.sent by { LocalKeepsSent(cfg, n, msg.channel, data.value, msg.pub); }
      forall s | s in m.socks ensures Flow(cfg, m.socks[s]) {
        assert Feeds(cfg, n.socks[s], m.socks[s], [msg.pub]);
      }
    } else {
      SameSocks(n);
      forall s | s in n.socks ensures Feeds(cfg, n.socks[s], n.socks[s], [msg.pub]) { }
    }
  }

  lemma LocalKeepsSent<S>(cfg: Config, n: Node<S>, channel: string, data: string, pub: PubId<S>)
    ensures PublishLocal(cfg, n, channel, data, pub).sent == n.sent
  {
  }

  lemma SameSocks<S>(n: Node<S>)
    ensures Fanned(n, n)
  {
  }

  // An own message decodes to nothing.
  lemma OwnDropped<S>(cfgs: Configs, json: RedisWire.Json, cl: Cluster<S>, k: string, msg: Message<S>)
    requires Ok(cfgs, json, cl) && k in cl.nodes && Authentic(cl, msg) && msg.pub.node == k
    ensures RedisWire.Decode(cfgs[k].json, cfgs[k].instanceID, msg.raw) == None
  {
    assert NodeOk(cfgs[k], cl.nodes[k]);
    assert cfgs[k].instanceID == k && k != "" && RedisWire.Readable(k);
    hide Ok, Books, Flows;
    RedisWire.OwnEchoDropped(cfgs[k].json, k, msg.data);
  }

  lemma ReadGots<S>(cfgs: Configs, json: RedisWire.Json, cl: Cluster<S>, after: Cluster<S>, k: string)
    requires Ok(cfgs, json, cl) && Can(cl, Read(k)) && HasRead(cfgs, cl, after, k)
    requires Counts(after) == Counts(cl) && forall msg :: Authentic(cl, msg) ==> Authentic(after, msg)
    ensures LinkOk(after, k) && GotsOk(after, k)
  {
    hide NodeOk, RedisWire.Decode, ReadBy, Pubs, Authentic, Fanned, Flow, Replay, Counts, GotOk, IdsOk;
    var inbox := cl.links[k].inbox;
    var n, m := cl.nodes[k], after.nodes[k];
    assert NodeOk(cfgs[k], n) && LinkOk(cl, k) && GotsOk(cl, k);
    ReadNodeOk(cfgs[k], n, inbox[0]);
    if inbox[0].pub.node == k { OwnDropped(cfgs, json, cl, k, inbox[0]); }
    hide Ok;
    ReadFans(cfgs[k], n, inbox[0]);
    assert Ids(inbox[1..]) == Ids(inbox)[1..] && Ids(inbox)[0] == inbox[0].pub;
    forall s | s in m.socks ensures GotOk(Counts(after), k, Pubs(m.socks[s].offered), Ids(inbox[1..])) {
      HeadTaken(Counts(cl), k, Pubs(n.socks[s].offered), Ids(inbox));
      assert Feeds(cfgs[k], n.socks[s], m.socks[s], [inbox[0].pub]);
    }
    HeadOk(cl, after, k);
  }

  lemma HeadOk<S>(cl: Cluster<S>, after: Cluster<S>, k: string)
    requires k in cl.nodes && k in cl.links && k in after.nodes && k in after.links
    requires LinkOk(cl, k) && cl.links[k].inbox != []
    requires after.links[k] == cl.links[k].(inbox := cl.links[k].inbox[1..])
    requires after.nodes[k].subscribed == cl.nodes[k].subscribed && Counts(after) == Counts(cl)
    requires forall msg :: Authentic(cl, msg) ==> Authentic(after, msg)
    ensures LinkOk(after, k)
  {
    var inbox := cl.links[k].inbox;
    hide Counts, Authentic, Replay;
    assert Ids(inbox[1..]) == Ids(inbox)[1..];
    forall i | 0 <= i < |inbox| - 1 ensures Authentic(after, inbox[1..][i]) { assert inbox[1..][i] == inbox[i + 1]; }
  }

  lemma ReadFans<S>(cfg: Config, n: Node<S>, msg: Message<S>)
    ensures var m := ReadBy(cfg, n, msg);
      m.sent == n.sent && m.subscribed == n.subscribed && m.socks.Keys == n.socks.Keys && m.commands == n.commands
  {
  }

  lemma SameCounts<S>(cl: Cluster<S>, after: Cluster<S>)
    requires after.nodes.Keys == cl.nodes.Keys && after.external == cl.external
    requires forall k | k in cl.nodes :: after.nodes[k].sent == cl.nodes[k].sent
    ensures Counts(after) == Counts(cl)
    ensures forall msg :: Authentic(cl, msg) ==> Authentic(after, msg)
  {
  }

  // The cluster after a reading, part by part.
  ghost predicate HasRead<S>(cfgs: Configs, cl: Cluster<S>, after: Cluster<S>, k: string)
    requires Shape(cfgs, cl) && Can(cl, Read(k))
  {
    && after.nodes == cl.nodes[k := ReadBy(cfgs[k], cl.nodes[k], cl.links[k].inbox[0])]
    && after.links == cl.links[k := cl.links[k].(inbox := cl.links[k].inbox[1..])]
    && after.external == cl.external
  }

  lemma AfterRead<S>(cfgs: Configs, cl: Cluster<S>, k: string)
    requires Shape(cfgs, cl) && Can(cl, Read(k))
    ensures HasRead(cfgs, cl, After(cfgs, cl, Read(k)), k)
  {
  }

  lemma ReadCounts<S>(cfgs: Configs, cl: Cluster<S>, after: Cluster<S>, k: string)
    requires Shape(cfgs, cl) && Can(cl, Read(k)) && HasRead(cfgs, cl, after, k)
    ensures Counts(after) == Counts(cl) && Grown(cl, after)
    ensures forall msg :: Authentic(cl, msg) ==> Authentic(after, msg)
  {
    hide ReadBy;
    ReadFans(cfgs[k], cl.nodes[k], cl.links[k].inbox[0]);
    assert after.nodes.Keys == cl.nodes.Keys;
    SameCounts(cl, after);
  }

  lemma ReadKeeps<S>(cfgs: Configs, json: RedisWire.Json, cl: Cluster<S>, k: string)
    requires Ok(cfgs, json, cl) && Can(cl, Read(k))
    ensures Ok(cfgs, json, After(cfgs, cl, Read(k)))
  {
    hide NodeOk, LinkOk, GotsOk, ReadBy, After, Counts, Grown;
    var after := After(cfgs, cl, Read(k));
    AfterRead(cfgs, cl, k);
    ReadCounts(cfgs, cl, after, k);
    ReadGots(cfgs, json, cl, after, k);
    ReadNodeOk(cfgs[k], cl.nodes[k], cl.links[k].inbox[0]);
    assert after.nodes.Keys == cl.nodes.Keys && after.links.Keys == cl.links.Keys;
    forall j | j in after.nodes ensures NodeOk(cfgs[j], after.nodes[j]) && LinkOk(after, j) && GotsOk(after, j) {
      assert NodeOk(cfgs[j], cl.nodes[j]) && LinkOk(cl, j) && GotsOk(cl, j);
      if j != k { Aside(cl, after, j); }
    }
  }

  lemma Aside<S>(cl: Cluster<S>, after: Cluster<S>, j: string)
    requires j in cl.nodes && j in cl.links && j in after.links && j in after.nodes
    requires LinkOk(cl, j) && GotsOk(cl, j)
    requires after.nodes[j] == cl.nodes[j] && after.links[j] == cl.links[j]
    requires Grown(cl, after) && Counts(after) == Counts(cl)
    ensures LinkOk(after, j) && GotsOk(after, j)
  {
    hide Counts;
  }

  // ---- runs ----------------------------------------------------------------

  lemma EventKeeps<S>(cfgs: Configs, json: RedisWire.Json, cl: Cluster<S>, e: Action<S>)
    requires Ok(cfgs, json, cl) && Can(cl, e)
    ensures Ok(cfgs, json, After(cfgs, cl, e))
  {
    match e
    case NodeStep(k, step, delivered) => NodeStepKeeps(cfgs, json, cl, k, step, delivered);
    case External(channel, raw) => ExternalKeeps(cfgs, json, cl, channel, raw);
    case Read(k) => ReadKeeps(cfgs, json, cl, k);
    case _ => RedisKeeps(cfgs, json, cl, e);
  }

  function NewCluster<S>(cfgs: Configs): Cluster<S> {
    Cluster(map k | k in cfgs :: NewNode(), map k | k in cfgs :: Link(false, {}, [], []), 0)
  }

  ghost predicate Allowed<S>(cfgs: Configs, cl: Cluster<S>, es: seq<Action<S>>)
    requires Shape(cfgs, cl)
    decreases |es|
  {
    es == [] || (Can(cl, es[0]) && Shape(cfgs, After(cfgs, cl, es[0])) && Allowed(cfgs, After(cfgs, cl, es[0]), es[1..]))
  }

  ghost function Ran<S>(cfgs: Configs, cl: Cluster<S>, es: seq<Action<S>>): Cluster<S>
    requires Shape(cfgs, cl) && Allowed(cfgs, cl, es)
    decreases |es|
  {
    if es == [] then cl else Ran(cfgs, After(cfgs, cl, es[0]), es[1..])
  }

  lemma {:induction false} RunKeeps<S>(cfgs: Configs, json: RedisWire.Json, cl: Cluster<S>, es: seq<Action<S>>)
    requires Ok(cfgs, json, cl) && Allowed(cfgs, cl, es)
    ensures Ok(cfgs, json, Ran(cfgs, cl, es))
    decreases |es|
  {
    if es != [] {
      hide Ok, After;
      EventKeeps(cfgs, json, cl, es[0]);
      RunKeeps(cfgs, json, After(cfgs, cl, es[0]), es[1..]);
    }
  }

  lemma NewOk<S>(cfgs: Configs, json: RedisWire.Json)
    requires Usable(cfgs, json)
    ensures Ok(cfgs, json, NewCluster<S>(cfgs))
  {
    hide Usable, Counts;
    var cl := NewCluster<S>(cfgs);
    forall k | k in cl.nodes ensures NodeOk(cfgs[k], cl.nodes[k]) && LinkOk(cl, k) && GotsOk(cl, k) {
      assert cl.nodes[k] == NewNode() && cl.links[k].inbox == [];
    }
  }
}
