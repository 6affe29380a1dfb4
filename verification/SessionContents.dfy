// What a page publishes, from the page to the sockets: the server handles the very
// channel and data, in the order in which the page emitted them.
module SessionContents {
  import opened Prelude
  import opened Client
  import opened ClientRuns
  import opened Session
  import Agreement
  import Auth
  import ClientEmits
  import Contents
  import N = Node
  import NodeRuns

  lemma TurnKeepsWire<S>(cfg: N.Config, x: Session<S>, s: S, t: Turn<S>)
    requires CanTurn(x, s, t)
    ensures x.client.wire <= AfterTurn(cfg, x, s, t).client.wire
  {
    hide After, Can, OnAnswer, N.Next, Send;
    var c := x.client;
    match t
    case Page(step) => ClientEmits.StepKeepsWire(c, step);
    case Read(order) =>
      var p := x.node.socks[s].written[x.read];
      match p {
        case Response(rid, _) => ClientEmits.AnswerKeepsWire(c, rid, true, order);
        case ErrorResponse(rid, _) => ClientEmits.AnswerKeepsWire(c, rid, false, order);
        case SetAuthToken(_, _) =>
          ClientEmits.TokenKeepsWire(c, order);
          ClientEmits.SendKeepsWire(c, N.Unknown(None, ""));
        case _ =>
      }
    case _ =>
  }

  lemma {:induction false} WireKept<S>(cfg: N.Config, states: seq<Session<S>>, turns: seq<Turn<S>>, s: S, i: nat, j: nat)
    requires IsRun(cfg, states, turns, s) && i <= j < |states|
    ensures states[i].client.wire <= states[j].client.wire
    decreases j
  {
    hide CanTurn, AfterTurn;
    if i < j {
      WireKept(cfg, states, turns, s, i, j - 1);
      TurnKeepsWire(cfg, states[j - 1], s, turns[j - 1]);
    }
  }

  lemma JoinedInv<S>(cfg: N.Config, x: Session<S>, s: S)
    requires Joined(cfg, x, s) && Live(x, s)
    ensures Inv(x.client) && Tried(x.client) && NodeRuns.Books(cfg, x.node)
  {
    hide Inv, Tried, NodeRuns.Books, NodeRuns.Flow, Agreement.Numbered, Agreement.AnswersOk, Agreement.Placed, Agreement.Agreed;
  }

  // The page emits at turn `i`; at turn `j` the server handles the message of that
  // event.
  ghost predicate Handles<S>(states: seq<Session<S>>, turns: seq<Turn<S>>, i: nat, j: nat, what: UserEvent, callback: bool, now: int) {
    && i < j < |turns| && |states| == |turns| + 1
    && states[i].client.conn == Open && states[i].client.ready
    && turns[i] == Page(DoEmit(what, callback)) && turns[j] == Turn.Handle(now)
    && states[j].handled == |states[i].client.wire| + |states[i].client.buffer|
  }

  // It is that event, whatever was sent, read or handled meanwhile.
  lemma EventCrosses<S>(cfg: N.Config, states: seq<Session<S>>, turns: seq<Turn<S>>, s: S, before: Client, auth: Option<Auth.Signed>,
                        i: nat, j: nat, what: UserEvent, callback: bool, now: int)
    requires IsRun(cfg, states, turns, s) && Begins(cfg, states[0], s, before, auth)
    requires Handles(states, turns, i, j, what, callback, now)
    ensures states[j].handled < |states[j].client.wire|
    ensures
      var ev := states[j].client.wire[states[j].handled];
      && ClientEmits.IsMessageOf(ev, what) && (ev.cid.Some? <==> callback)
      && N.Live(states[j].node, s) && NodeRuns.Books(cfg, states[j].node)
      && states[j + 1].node == N.Next(cfg, states[j].node, N.Receive(s, ev, now))
  {
    hide Begins, Joined, After, N.Next, N.Enabled, NodeRuns.Books, Inv, Tried, ClientEmits.IsMessageOf;
    assert CanTurn(states[i], s, turns[i]) && states[i + 1] == AfterTurn(cfg, states[i], s, turns[i]);
    assert CanTurn(states[j], s, turns[j]) && states[j + 1] == AfterTurn(cfg, states[j], s, turns[j]);
    JoinedAt(cfg, states, turns, s, before, auth, i);
    JoinedInv(cfg, states[i], s);
    JoinedAt(cfg, states, turns, s, before, auth, j);
    JoinedInv(cfg, states[j], s);
    WireKept(cfg, states, turns, s, i + 1, j);
    hide IsRun;
    ClientEmits.EmitGoesOut(states[i].client, what, callback);
    var w := states[j].handled;
    assert states[j].client.wire[w] == states[i + 1].client.wire[w];
  }

  // A publication of the page: if the server lets it, it is sent to Redis once, on its
  // channel and with its data, and is the last packet offered to each open subscriber.
  lemma PublishCrosses<S>(cfg: N.Config, states: seq<Session<S>>, turns: seq<Turn<S>>, s: S, before: Client, auth: Option<Auth.Signed>,
                          i: nat, j: nat, channel: string, data: string, callback: bool, now: int, r: S)
    requires IsRun(cfg, states, turns, s) && Begins(cfg, states[0], s, before, auth)
    requires Handles(states, turns, i, j, PublishData(channel, data), callback, now)
    requires channel != "" && cfg.allowClientPublish && s in states[j].node.socks
    requires !cfg.restrictClientPublish || channel in states[j].node.socks[s].subs
    ensures Contents.SendsOne(cfg, states[j].node, states[j + 1].node, s, channel, data)
    ensures
      && r in states[j].node.socks && r in N.Subscribers(states[j].node, channel) && Contents.IsData(cfg.json, data)
      && r in states[j + 1].node.socks && !states[j + 1].node.socks[r].closed ==>
        var offered := states[j + 1].node.socks[r].offered;
        offered != [] && offered[|offered| - 1] ==
          N.PublishPacket(channel, if data == "" then "null" else data, N.PubId(cfg.instanceID, Some(s), |states[j].node.sent|))
  {
    hide IsRun, Begins, N.Next, N.Subscribers, NodeRuns.Books, Contents.SendsOne, N.Live, Contents.IsData;
    EventCrosses(cfg, states, turns, s, before, auth, i, j, PublishData(channel, data), callback, now);
    var n := states[j].node;
    var ev := states[j].client.wire[states[j].handled];
    assert ev == N.PublishEvent(ev.cid, channel, data);
    Contents.PublishSends(cfg, n, s, ev.cid, channel, data, now);
    if r in n.socks && r in N.Subscribers(n, channel) && Contents.IsData(cfg.json, data)
       && r in states[j + 1].node.socks && !states[j + 1].node.socks[r].closed {
      Contents.PublishShows(cfg, n, s, ev.cid, channel, data, now, r);
    }
  }
}
