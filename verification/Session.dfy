// One connection, both ends: the client and the server's socket with all the rest of
// its process, from the handshake on.
module Session {
  import opened Prelude
  import opened Client
  import opened ClientRuns
  import opened Agreement
  import opened Answers
  import Auth
  import N = Node
  import NodeRuns
  import SocketRuns

  // `handled` counts the client's messages that the server has handled, `read` the
  // server's packets that the client has read.
  datatype Session<S> = Session(client: Client, node: N.Node<S>, handled: nat, read: nat)

  datatype Turn<S> =
    | Page(turn: Step)            // the page, a timer, or the browser's WebSocket
    | Handle(now: int)            // the server handles a message of the client
    | Other(step: N.Step<S>)      // anything else that happens on the server
    | Read(order: seq<string>)    // the client reads a packet

  ghost predicate Live<S>(x: Session<S>, s: S) { N.Live(x.node, s) && x.client.conn != Closed }

  ghost predicate CanTurn<S>(x: Session<S>, s: S, t: Turn<S>) {
    Live(x, s) &&
    match t
    case Page(turn) => Can(x.client, turn) && !turn.Opened? && !turn.Answered? && !turn.TokenSet?
    case Handle(_) => x.handled < |x.client.wire|
    case Other(step) => N.Enabled(x.node, step) && !(step.Receive? && step.s == s)
    case Read(order) => x.read < |x.node.socks[s].written| && ListsPending(x.client, order)
  }

  // The client reads one packet.
  function Hears<S>(c: Client, p: N.Packet<S>, order: seq<string>): Client {
    match p
    case Response(rid, _) => OnAnswer(c, rid, true, order)
    case ErrorResponse(rid, _) => OnAnswer(c, rid, false, order)
    case SetAuthToken(_, _) => if c.conn == Open then After(c, TokenSet(order)) else Send(c, N.Unknown(None, ""))
    case _ => c
  }

  ghost function AfterTurn<S>(cfg: N.Config, x: Session<S>, s: S, t: Turn<S>): Session<S>
    requires CanTurn(x, s, t)
  {
    match t
    case Page(turn) => x.(client := After(x.client, turn))
    case Handle(now) =>
      x.(node := N.Next(cfg, x.node, N.Receive(s, x.client.wire[x.handled], now)), handled := x.handled + 1)
    case Other(step) => x.(node := N.Next(cfg, x.node, step))
    case Read(order) =>
      x.(client := Hears(x.client, x.node.socks[s].written[x.read], order), read := x.read + 1)
  }

  // ---- the invariant -------------------------------------------------------

  ghost predicate Joined<S>(cfg: N.Config, x: Session<S>, s: S) {
    && NodeRuns.Books(cfg, x.node)
    && (Live(x, s) ==>
          var sock := x.node.socks[s];
          && NodeRuns.Flow(cfg, sock) && x.read <= |sock.offered|
          && Tried(x.client) && x.handled <= |x.client.wire| && Fresh(x.client, x.handled, sock.subs)
          && SidesAgree(x.client, x.handled, sock.subs, AnswersOf(sock.offered[x.read..]), sock.closed))
  }

  // ---- the server's end ----------------------------------------------------

  // The answers still on their way after `t` came of `s`.
  lemma TailAnswers<S>(s: N.Sock<S>, t: N.Sock<S>, x: seq<Answer>, read: nat) returns (more: seq<Answer>)
    requires Says(s, t, x) && read <= |s.offered|
    ensures read <= |t.offered| && AnswersOf(t.offered[read..]) == AnswersOf(s.offered[read..]) + more
    ensures more == x || (t.closed && more == [])
  {
    var tail := t.offered[|s.offered|..];
    hide AnswersOf;
    assert t.offered == s.offered + tail;
    assert t.offered[read..] == s.offered[read..] + tail;
    AnswersJoin(s.offered, tail);
    AnswersJoin(s.offered[read..], tail);
    more := AnswersOf(tail);
    var a := AnswersOf(s.offered);
    assert (a + more)[|a|..] == more && (a + x)[|a|..] == x;
    if AnswersOf(t.offered) == a { assert a + more == a; assert |more| == 0; }
  }

  lemma AnswerServes<S>(cfg: N.Config, s: N.Sock<S>, ev: N.Event, now: int, after: set<string>, more: seq<Answer>, closed: bool)
    requires "" !in s.subs && after == SocketRuns.OwnEvent(cfg, s, ev, now).subs
    requires more == AnswerTo(cfg, s, ev, now) || (closed && more == [])
    ensures Serves(ev, s.subs, after, more, closed)
  {
    OwnSubs(cfg, s, ev, now);
    hide SocketRuns.OwnEvent, N.SubscribeVerdict, N.LoginResult;
  }

  // What handling one message does to the socket that it came from.
  lemma HandleServes<S>(cfg: N.Config, n: N.Node<S>, s: S, ev: N.Event, now: int, read: nat) returns (more: seq<Answer>)
    requires N.Live(n, s) && read <= |n.socks[s].offered| && "" !in n.socks[s].subs
    ensures
      var m := N.Next(cfg, n, N.Receive(s, ev, now));
      && s in m.socks && read <= |m.socks[s].offered| && !m.socks[s].gone
      && (n.socks[s].closed ==> m.socks[s].closed)
      && AnswersOf(m.socks[s].offered[read..]) == AnswersOf(n.socks[s].offered[read..]) + more
      && Serves(ev, n.socks[s].subs, m.socks[s].subs, more, m.socks[s].closed)
  {
    hide N.Next, N.Handle, Says, AnswersOf, SocketRuns.OwnEvent, AnswerTo, Serves;
    var m := N.Next(cfg, n, N.Receive(s, ev, now));
    SocketRuns.OwnStep(cfg, n, N.Receive(s, ev, now), s);
    StepSays(cfg, n, N.Receive(s, ev, now), s);
    OwnSubs(cfg, n.socks[s], ev, now);
    more := TailAnswers(n.socks[s], m.socks[s], AnswerTo(cfg, n.socks[s], ev, now), read);
    SaysClosed(n.socks[s], m.socks[s], AnswerTo(cfg, n.socks[s], ev, now));
    AnswerServes(cfg, n.socks[s], ev, now, m.socks[s].subs, more, m.socks[s].closed);
  }

  lemma SaysClosed<S>(s: N.Sock<S>, t: N.Sock<S>, x: seq<Answer>)
    requires Says(s, t, x)
    ensures s.closed ==> t.closed
  {
  }

  lemma OwnSubs<S>(cfg: N.Config, s: N.Sock<S>, ev: N.Event, now: int)
    ensures
      var t := SocketRuns.OwnEvent(cfg, s, ev, now);
      && t.gone == s.gone
      && match ev
         case SubscribeEvent(_, ch, _) =>
           t.subs == (if N.SubscribeVerdict(cfg, s, ch).Accepted? then s.subs + {ch} else s.subs)
           && (N.SubscribeVerdict(cfg, s, ch).Accepted? ==> ch != "")
         case UnsubscribeEvent(_, ch) => t.subs == if ch == "" then s.subs else s.subs - {ch}
         case _ => t.subs == s.subs
  {
    hide N.OnlineEvent, N.HandleAlone;
    if !ev.SubscribeEvent? && !ev.UnsubscribeEvent? && !ev.PublishEvent? { NodeRuns.AloneFeeds(cfg, s, ev, now); }
  }

  lemma FlowKept<S>(cfg: N.Config, n: N.Node<S>, step: N.Step<S>, s: S)
    requires NodeRuns.Books(cfg, n) && N.Enabled(n, step) && s in n.socks && NodeRuns.Flow(cfg, n.socks[s])
    ensures NodeRuns.Books(cfg, N.Next(cfg, n, step))
    ensures s in N.Next(cfg, n, step).socks && NodeRuns.Flow(cfg, N.Next(cfg, n, step).socks[s])
  {
    hide NodeRuns.Books, N.Next, N.Enabled;
    NodeRuns.StepKeeps(cfg, n, step);
    assert NodeRuns.Feeds(cfg, n.socks[s], N.Next(cfg, n, step).socks[s], NodeRuns.StepPub(cfg, n, step));
  }

  lemma FreshHandled(c: Client, handled: nat, held: set<string>, after: set<string>, more: seq<Answer>, now: bool)
    requires handled < |c.wire| && Fresh(c, handled, held) && Serves(c.wire[handled], held, after, more, now)
    ensures Fresh(c, handled + 1, after)
  {
    if c.conn == Connecting {
      var ev := c.wire[handled];
      var rest := c.wire[handled + 1..];
      forall ch ensures AsksOf(rest, ch) == [] {
        UpTail(c.wire, handled, ch);
        assert AsksOf(c.wire[handled..], ch) == [];
      }
      if ev.SubscribeEvent? {
        UpTail(c.wire, handled, ev.channel);
        assert AsksOf(c.wire[handled..], ev.channel) == [];
      }
    }
  }

  lemma LiveReceives<S>(n: N.Node<S>, s: S, ev: N.Event, now: int)
    requires N.Live(n, s)
    ensures N.Enabled(n, N.Receive(s, ev, now))
  {
  }

  lemma NoEmptyName(c: Client, handled: nat, held: set<string>, answers: seq<Answer>, closed: bool)
    requires SidesAgree(c, handled, held, answers, closed)
    ensures "" !in held
  {
  }

  lemma HandleTurn<S>(cfg: N.Config, x: Session<S>, s: S, now: int)
    requires Joined(cfg, x, s) && CanTurn(x, s, Handle(now))
    ensures Joined(cfg, AfterTurn(cfg, x, s, Handle(now)), s)
  {
    hide N.Next, N.Enabled, NodeRuns.Books, NodeRuns.Flow, Tried, Fresh, SidesAgree, AnswersOf, Serves;
    var ev := x.client.wire[x.handled];
    var n := x.node;
    var step := N.Receive(s, ev, now);
    LiveReceives(n, s, ev, now);
    NoEmptyName(x.client, x.handled, n.socks[s].subs, AnswersOf(n.socks[s].offered[x.read..]), n.socks[s].closed);
    FlowKept(cfg, n, step, s);
    var more := HandleServes(cfg, n, s, ev, now, x.read);
    var m := N.Next(cfg, n, step);
    FreshHandled(x.client, x.handled, n.socks[s].subs, m.socks[s].subs, more, m.socks[s].closed);
    HandleKeeps(x.client, x.handled, n.socks[s].subs, m.socks[s].subs, AnswersOf(n.socks[s].offered[x.read..]), more,
                n.socks[s].closed, m.socks[s].closed);
  }

  // A step of the server that is not about this socket's messages.
  lemma OtherServes<S>(cfg: N.Config, n: N.Node<S>, step: N.Step<S>, s: S, read: nat)
    requires N.Enabled(n, step) && N.Live(n, s) && !(step.Receive? && step.s == s) && read <= |n.socks[s].offered|
    ensures
      var m := N.Next(cfg, n, step);
      && s in m.socks && read <= |m.socks[s].offered|
      && (n.socks[s].closed ==> m.socks[s].closed)
      && AnswersOf(m.socks[s].offered[read..]) == AnswersOf(n.socks[s].offered[read..])
      && (!m.socks[s].gone ==> m.socks[s].subs == n.socks[s].subs)
  {
    hide N.Next, N.Enabled, Says, AnswersOf, AnswerTo, N.OfflineEvent;
    var m := N.Next(cfg, n, step);
    SocketRuns.OwnStep(cfg, n, step, s);
    StepSays(cfg, n, step, s);
    var more := TailAnswers(n.socks[s], m.socks[s], [], read);
    SaysClosed(n.socks[s], m.socks[s], []);
    assert AnswersOf(n.socks[s].offered[read..]) + [] == AnswersOf(n.socks[s].offered[read..]);
  }

  lemma OtherTurn<S>(cfg: N.Config, x: Session<S>, s: S, step: N.Step<S>)
    requires Joined(cfg, x, s) && CanTurn(x, s, Other(step))
    ensures Joined(cfg, AfterTurn(cfg, x, s, Other(step)), s)
  {
    var n := x.node;
    hide N.Next, N.Enabled, NodeRuns.Books, NodeRuns.Flow, Tried, Fresh, SidesAgree, AnswersOf;
    FlowKept(cfg, n, step, s);
    OtherServes(cfg, n, step, s, x.read);
    var m := N.Next(cfg, n, step);
    if !m.socks[s].gone {
      ClosingKeeps(x.client, x.handled, n.socks[s].subs, AnswersOf(n.socks[s].offered[x.read..]), n.socks[s].closed, m.socks[s].closed);
      FreshSame(x.client, x.handled, n.socks[s].subs, m.socks[s].subs);
    }
  }

  lemma FreshSame(c: Client, handled: nat, held: set<string>, after: set<string>)
    requires handled <= |c.wire| && Fresh(c, handled, held) && after == held
    ensures Fresh(c, handled, after)
  {
  }

  // ---- the client's end ----------------------------------------------------

  lemma CallsQuiet(c: Client, d: Client)
    requires d.wire == c.wire && d.cid == c.cid && d.channels == c.channels
    requires forall k | k in d.calls :: k in c.calls && d.calls[k] == c.calls[k]
    requires forall k | k in c.calls && c.calls[k].Channel? :: k in d.calls
    ensures Quiet(c, d, [])
  {
    QuietNone(c, d);
  }

  lemma TimeoutCalls(c: Client, id: nat)
    requires Inv(c)
    ensures var d := AckTimeout(c, id);
      && d.wire == c.wire && d.cid == c.cid && d.channels == c.channels && d.conn == c.conn
      && (forall k | k in d.calls :: k in c.calls && d.calls[k] == c.calls[k])
      && (forall k | k in c.calls && c.calls[k].Channel? :: k in d.calls)
  {
    hide BufferOk, FiredOk, TimersOk, IssuedOk, CallsOk, AllKnown, Without;
  }

  lemma PageKeeps(c: Client, step: Step, handled: nat, held: set<string>, answers: seq<Answer>, closed: bool)
    requires SidesAgree(c, handled, held, answers, closed) && Tried(c) && Fresh(c, handled, held)
    requires Can(c, step) && !step.Opened? && !step.Answered? && !step.TokenSet?
    requires After(c, step).conn != Closed
    ensures SidesAgree(After(c, step), handled, held, answers, closed)
  {
    hide SidesAgree, Inv, Tried, Fresh, Flush, OnClose, Quiet, Subscribe, Unsubscribe, Emit, AckTimeout;
    SidesInv(c, handled, held, answers, closed);
    match step
    case DoSubscribe(name) => SubscribeKeeps(c, name, handled, held, answers, closed);
    case DoUnsubscribe(name) => UnsubscribeKeeps(c, name, handled, held, answers, closed);
    case DoEmit(what, callback) => EmitKeeps(c, what, callback, handled, held, answers, closed);
    case TimedOut(id) =>
      TimeoutCalls(c, id);
      CallsQuiet(c, AckTimeout(c, id));
      TimeoutInv(c, id);
      QuietKeeps(c, AckTimeout(c, id), [], handled, held, answers, closed);
    case Closing =>
      CallsQuiet(c, c.(ready := false));
      ReadyOnly(c);
      QuietKeeps(c, c.(ready := false), [], handled, held, answers, closed);
    case _ =>
  }

  // While the client connects it sends nothing.
  lemma PageFresh(c: Client, step: Step, handled: nat, held: set<string>)
    requires handled <= |c.wire| && Fresh(c, handled, held) && c.conn != Closed
    requires Can(c, step) && !step.Opened? && !step.Answered? && !step.TokenSet?
    requires After(c, step).conn != Closed && handled <= |After(c, step).wire|
    ensures Fresh(After(c, step), handled, held)
  {
    hide Idle, Flush, OnClose;
    if After(c, step).conn == Connecting {
      PageWire(c, step);
    }
  }

  lemma PageWire(c: Client, step: Step)
    requires Can(c, step) && !step.Opened? && !step.Answered? && !step.TokenSet? && c.conn != Closed
    requires After(c, step).conn == Connecting
    ensures c.conn == Connecting && After(c, step).wire == c.wire
  {
    hide Flush, OnClose, Without;
    if c.conn == Open { OpenStays(c, step); }
  }

  lemma OpenStays(c: Client, step: Step)
    requires c.conn == Open && !step.Opened? && !step.Answered? && !step.TokenSet?
    ensures After(c, step).conn != Connecting
  {
    hide OnClose, Without, Flush;
    if step.DoEmit? { FlushStays(Buffer(c, step.what, step.callback)); }
  }

  lemma {:induction false} FlushStays(c: Client)
    requires c.conn != Connecting
    ensures Flush(c).conn != Connecting
    decreases |c.buffer|
  {
    if c.buffer != [] {
      hide OnClose;
      FlushStays(EmitObject(c.(buffer := c.buffer[1..]), c.buffer[0]));
    }
  }

  lemma PageTurn<S>(cfg: N.Config, x: Session<S>, s: S, step: Step)
    requires Joined(cfg, x, s) && CanTurn(x, s, Page(step))
    ensures Joined(cfg, AfterTurn(cfg, x, s, Page(step)), s)
  {
    hide SidesAgree, Fresh, Tried, After, AnswersOf, NodeRuns.Books, NodeRuns.Flow, Can, Inv;
    var sock := x.node.socks[s];
    var answers := AnswersOf(sock.offered[x.read..]);
    if After(x.client, step).conn != Closed {
      PageKeeps(x.client, step, x.handled, sock.subs, answers, sock.closed);
      SidesInv(x.client, x.handled, sock.subs, answers, sock.closed);
      SidesInv(After(x.client, step), x.handled, sock.subs, answers, sock.closed);
      StepInv(x.client, step);
      PageFresh(x.client, step, x.handled, sock.subs);
    }
  }

  // ---- reading -------------------------------------------------------------

  lemma HeadAnswers<S>(ps: seq<N.Packet<S>>, read: nat)
    requires read < |ps|
    ensures AnswersOf(ps[read..]) == AnswersOf([ps[read]]) + AnswersOf(ps[read + 1..])
  {
    assert ps[read..] == [ps[read]] + ps[read + 1..];
    AnswersJoin([ps[read]], ps[read + 1..]);
  }

  lemma OneAnswer<S>(p: N.Packet<S>)
    ensures AnswersOf([p]) == if p.Response? then [Answer(p.rid, true)] else if p.ErrorResponse? then [Answer(p.rid, false)] else []
  {
    assert [p][..0] == [];
  }

  // A message without a call is sent.
  lemma SendKeeps(c: Client, handled: nat, held: set<string>, answers: seq<Answer>, closed: bool)
    requires SidesAgree(c, handled, held, answers, closed) && Tried(c) && Fresh(c, handled, held)
    requires Send(c, N.Unknown(None, "")).conn != Closed
    ensures var d := Send(c, N.Unknown(None, ""));
      SidesAgree(d, handled, held, answers, closed) && Tried(d) && handled <= |d.wire| && Fresh(d, handled, held)
  {
    var ev := N.Unknown(None, "");
    var d := Send(c, ev);
    hide Inv, Tried, SidesAgree;
    SidesInv(c, handled, held, answers, closed);
    SendInv(c, ev);
    assert c.ready;
    assert Quiet(c, d, [ev]) by { UnknownQuiet(c, d); }
    hide Quiet;
    QuietKeeps(c, d, [ev], handled, held, answers, closed);
    if d.conn == Connecting {
      assert d.wire[handled..] == c.wire[handled..] + [ev];
      var up := d.wire[handled..];
      forall ch ensures AsksOf(up, ch) == [] {
        OneAsk(c.wire[handled..], ev, ch);
        assert AsksOf(c.wire[handled..], ch) == [];
      }
    }
  }

  lemma UnknownQuiet(c: Client, d: Client)
    requires d == c.(wire := c.wire + [N.Unknown(None, "")])
    ensures Quiet(c, d, [N.Unknown(None, "")])
  {
    WaitsByCalls(c, d);
    hide Waits;
  }

  lemma AnswerConn(c: Client, rid: int, ok: bool, order: seq<string>)
    requires Inv(c) && c.conn != Closed && OnAnswer(c, rid, ok, order).conn == Connecting
    ensures c.conn == Connecting && OnAnswer(c, rid, ok, order).wire == c.wire
  {
    hide OnClose, Base, Flush, ProcessPending;
    if rid >= 0 && rid in c.calls && c.calls[rid] == Handshake && ok {
      var d := c.(calls := c.calls - {rid}, conn := Open);
      ProcessConn(d, order);
      FlushStays(ProcessPending(d, order));
    }
  }

  lemma AnswerKeeps(c: Client, handled: nat, held: set<string>, a: Answer, rest: seq<Answer>, closed: bool, order: seq<string>)
    requires SidesAgree(c, handled, held, [a] + rest, closed) && Tried(c) && ListsPending(c, order) && Fresh(c, handled, held)
    requires OnAnswer(c, a.rid, a.ok, order).conn != Closed
    ensures var d := OnAnswer(c, a.rid, a.ok, order);
      SidesAgree(d, handled, held, rest, closed) && Tried(d) && handled <= |d.wire| && Fresh(d, handled, held)
  {
    hide SidesAgree, Inv, Tried, ListsPending, OnAnswer, Idle;
    var d := OnAnswer(c, a.rid, a.ok, order);
    SidesInv(c, handled, held, [a] + rest, closed);
    ReadKeeps(c, handled, held, a, rest, closed, order);
    SidesInv(d, handled, held, rest, closed);
    AnswerInv(c, a.rid, a.ok, order);
    if d.conn == Connecting { AnswerConn(c, a.rid, a.ok, order); }
  }

  lemma HearsKeeps<S>(c: Client, p: N.Packet<S>, order: seq<string>, handled: nat, held: set<string>, rest: seq<Answer>, closed: bool)
    requires SidesAgree(c, handled, held, AnswersOf([p]) + rest, closed) && Tried(c) && ListsPending(c, order) && Fresh(c, handled, held)
    requires Hears(c, p, order).conn != Closed
    ensures var d := Hears(c, p, order);
      SidesAgree(d, handled, held, rest, closed) && Tried(d) && handled <= |d.wire| && Fresh(d, handled, held)
  {
    hide SidesAgree, Inv, Tried, ListsPending, OnAnswer, Fresh, Send, AnswersOf;
    OneAnswer(p);
    SidesInv(c, handled, held, AnswersOf([p]) + rest, closed);
    match p
    case Response(rid, _) => AnswerKeeps(c, handled, held, Answer(rid, true), rest, closed, order);
    case ErrorResponse(rid, _) => AnswerKeeps(c, handled, held, Answer(rid, false), rest, closed, order);
    case SetAuthToken(_, _) =>
      assert [] + rest == rest;
      Listed(c, order);
      if c.conn == Open { NothingUntried(c, order); }
      SendKeeps(c, handled, held, rest, closed);
    case _ =>
      assert [] + rest == rest;
  }

  lemma ReadTurn<S>(cfg: N.Config, x: Session<S>, s: S, order: seq<string>)
    requires Joined(cfg, x, s) && CanTurn(x, s, Read(order))
    ensures Joined(cfg, AfterTurn(cfg, x, s, Read(order)), s)
  {
    hide SidesAgree, Fresh, Tried, Hears, AnswersOf, NodeRuns.Books, ListsPending;
    var sock := x.node.socks[s];
    assert sock.written <= sock.offered && x.read < |sock.offered|;
    HeadAnswers(sock.offered, x.read);
    var p := sock.written[x.read];
    assert p == sock.offered[x.read];
    if Hears(x.client, p, order).conn != Closed {
      HearsKeeps(x.client, p, order, x.handled, sock.subs, AnswersOf(sock.offered[x.read + 1..]), sock.closed);
    }
  }

  // ---- runs ----------------------------------------------------------------

  lemma TurnKeeps<S>(cfg: N.Config, x: Session<S>, s: S, t: Turn<S>)
    requires Joined(cfg, x, s) && CanTurn(x, s, t)
    ensures Joined(cfg, AfterTurn(cfg, x, s, t), s)
  {
    hide Joined, CanTurn, AfterTurn;
    match t
    case Page(step) => PageTurn(cfg, x, s, step);
    case Handle(now) => HandleTurn(cfg, x, s, now);
    case Other(step) => OtherTurn(cfg, x, s, step);
    case Read(order) => ReadTurn(cfg, x, s, order);
  }

  // A connection begins: the WebSocket opens on a server that just registered it.
  ghost predicate Begins<S>(cfg: N.Config, x: Session<S>, s: S, before: Client, auth: Option<Auth.Signed>) {
    && NodeRuns.Books(cfg, x.node) && s in x.node.socks && x.node.socks[s] == N.NewSock()
    && Inv(before) && Tried(before) && Can(before, Opened(auth))
    && x.client == SocketOpen(before, auth) && x.handled == 0 && x.read == 0
  }

  lemma FirstK(before: Client, auth: Option<Auth.Signed>)
    requires Inv(before) && Tried(before) && Can(before, Opened(auth))
    ensures var c := SocketOpen(before, auth);
      SidesAgree(c, 0, {}, [], false) && Tried(c) && Fresh(c, 0, {})
  {
    hide Base, Tried, Agreed;
    var c := SocketOpen(before, auth);
    SocketOpenInv(before, auth);
    assert c.wire == [N.Handshake(Some(before.cid), auth)] && c.conn == Connecting && c.cid == before.cid + 1;
    assert c.calls == map[before.cid := Handshake];
    var up := c.wire[0..];
    assert up == c.wire;
    NoChannelWaits(c);
    hide SocketOpen;
    forall ch ensures AsksOf(up, ch) == [] && Agreed(c, AsksOf(up, ch), ch, false, [], false) {
      NoAsks(up, ch);
      FirstAgreed(c, ch);
    }
  }

  lemma FirstAgreed(c: Client, ch: string)
    requires Inv(c) && c.conn == Connecting && forall k: nat :: !Waits(c, ch, k)
    ensures Agreed(c, [], ch, false, [], false)
  {
    hide Base, Waits;
    if ch in c.channels { assert ChanOk(c, c.channels[ch]); }
  }

  lemma NoChannelWaits(c: Client)
    requires forall k | k in c.calls :: c.calls[k] == Handshake
    ensures forall k: nat, ch :: !Waits(c, ch, k)
    ensures forall ch :: !WaitsAny(c, ch)
  {
  }

  lemma BeginsJoined<S>(cfg: N.Config, x: Session<S>, s: S, before: Client, auth: Option<Auth.Signed>)
    requires Begins(cfg, x, s, before, auth)
    ensures Joined(cfg, x, s)
  {
    hide SidesAgree, Fresh, Tried, SocketOpen, Inv, NodeRuns.Books;
    FirstK(before, auth);
  }

  ghost predicate IsRun<S>(cfg: N.Config, states: seq<Session<S>>, turns: seq<Turn<S>>, s: S) {
    |states| == |turns| + 1
    && forall i | 0 <= i < |turns| :: CanTurn(states[i], s, turns[i]) && states[i + 1] == AfterTurn(cfg, states[i], s, turns[i])
  }

  lemma {:induction false} JoinedAt<S>(cfg: N.Config, states: seq<Session<S>>, turns: seq<Turn<S>>, s: S,
                                       before: Client, auth: Option<Auth.Signed>, i: nat)
    requires IsRun(cfg, states, turns, s) && Begins(cfg, states[0], s, before, auth) && i < |states|
    ensures Joined(cfg, states[i], s)
  {
    hide Joined, Begins, CanTurn, AfterTurn;
    if i == 0 {
      BeginsJoined(cfg, states[0], s, before, auth);
    } else {
      JoinedAt(cfg, states, turns, s, before, auth, i - 1);
      TurnKeeps(cfg, states[i - 1], s, turns[i - 1]);
    }
  }

  // At every moment of a connection: what the client takes for subscribed the server
  // holds, until one of them has ended it; any interleaving of subscriptions, their
  // ends and refusals may be on its way.
  lemma SubscribedIsHeld<S>(cfg: N.Config, states: seq<Session<S>>, turns: seq<Turn<S>>, s: S,
                            before: Client, auth: Option<Auth.Signed>, i: nat, ch: string)
    requires IsRun(cfg, states, turns, s) && Begins(cfg, states[0], s, before, auth) && i < |states|
    requires Live(states[i], s) && ChanOf(states[i].client, ch).state == Subscribed
    ensures ch in states[i].node.socks[s].subs
  {
    hide IsRun, Begins, NodeRuns.Books, NodeRuns.Flow, Inv, Numbered, AnswersOk, Placed, AnswersOf, Tried;
    JoinedAt(cfg, states, turns, s, before, auth, i);
    var x := states[i];
    var sock := x.node.socks[s];
    assert Agreed(x.client, AsksOf(x.client.wire[x.handled..], ch), ch, ch in sock.subs, AnswersOf(sock.offered[x.read..]), sock.closed);
  }

  function SubscribedSet(c: Client): set<string> {
    set name | name in c.channels && c.channels[name].state == Subscribed
  }

  // Nothing is on its way, in either direction.
  ghost predicate PipesEmpty<S>(x: Session<S>, s: S)
    requires s in x.node.socks
  {
    x.handled == |x.client.wire| && x.read == |x.node.socks[s].offered|
  }

  // Whenever both pipes are empty on an open connection, the two sides hold exactly
  // the same channels, and no subscription is pending for an answer.
  lemma QuietMeansSame<S>(cfg: N.Config, states: seq<Session<S>>, turns: seq<Turn<S>>, s: S,
                          before: Client, auth: Option<Auth.Signed>, i: nat)
    requires IsRun(cfg, states, turns, s) && Begins(cfg, states[0], s, before, auth) && i < |states|
    requires Live(states[i], s) && !states[i].node.socks[s].closed && PipesEmpty(states[i], s)
    ensures SubscribedSet(states[i].client) == states[i].node.socks[s].subs
    ensures forall ch :: !CallsChannel(states[i].client, ch)
  {
    hide IsRun, Begins, NodeRuns.Books, NodeRuns.Flow, Inv, Numbered, AnswersOk, Placed, Tried;
    JoinedAt(cfg, states, turns, s, before, auth, i);
    var x := states[i];
    var sock := x.node.socks[s];
    assert sock.offered[x.read..] == [] && x.client.wire[x.handled..] == [];
    forall ch ensures (ch in SubscribedSet(x.client) <==> ch in sock.subs) && !CallsChannel(x.client, ch) {
      assert AsksOf(x.client.wire[x.handled..], ch) == [];
      assert Agreed(x.client, [], ch, ch in sock.subs, [], false);
      NobodyWaits(x.client, ch, ch in sock.subs);
    }
  }

  lemma NobodyWaits(c: Client, ch: string, held: bool)
    requires Agreed(c, [], ch, held, [], false)
    ensures !CallsChannel(c, ch)
    ensures ChanOf(c, ch).state == Subscribed <==> held
  {
    if CallsChannel(c, ch) {
      var k :| k in c.calls && c.calls[k] == Channel(ch);
      assert Waits(c, ch, k);
    }
  }
}
