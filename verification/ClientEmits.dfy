// What the events of a page become on the wire.
module ClientEmits {
  import opened Prelude
  import opened Client
  import opened ClientRuns
  import opened ClientChannels
  import Auth
  import Node

  // The message is the event of the page, whatever its call id.
  ghost predicate IsMessageOf(ev: Node.Event, what: UserEvent) {
    match what
    case Login(request) => ev.LoginEvent? && ev.request == request
    case PublishData(channel, data) => ev.PublishEvent? && ev.channel == channel && ev.data == data
    case RemoveToken => ev.RemoveAuthToken?
    case Custom(name) => ev.Unknown? && ev.name == name
  }

  // The event went out as this message, with a call id exactly if it has a callback; the
  // call is known to be that of the event.
  ghost predicate WentOut(c: Client, e: Emitted, ev: Node.Event) {
    && IsMessageOf(ev, e.what)
    && (ev.cid.Some? <==> e.id in c.events.callbacks)
    && (ev.cid.Some? ==>
          && ev.cid.value in c.calls && c.calls[ev.cid.value] == User(e.id)
          && e.id in c.events.cids && c.events.cids[e.id] == ev.cid.value)
  }

  ghost predicate Distinct(buffer: seq<Emitted>) {
    forall i, j | 0 <= i < j < |buffer| :: buffer[i].id != buffer[j].id
  }

  ghost predicate Below(c: Client) { forall k | k in c.calls :: k < c.cid }

  // `d` still knows the calls of `c`, and of the events that are not in `buffer` the
  // call ids.
  ghost predicate StillKnows(c: Client, d: Client, buffer: seq<Emitted>) {
    && d.events.callbacks == c.events.callbacks && d.cid >= c.cid && d.ready == c.ready && d.conn == c.conn
    && (forall k | k in c.calls :: k in d.calls && d.calls[k] == c.calls[k])
    && (forall id | id in c.events.cids && forall i | 0 <= i < |buffer| :: buffer[i].id != id ::
          id in d.events.cids && d.events.cids[id] == c.events.cids[id])
  }

  lemma WentOutStill(c: Client, d: Client, e: Emitted, ev: Node.Event, buffer: seq<Emitted>)
    requires WentOut(c, e, ev) && StillKnows(c, d, buffer)
    requires forall i | 0 <= i < |buffer| :: buffer[i].id != e.id
    ensures WentOut(d, e, ev)
  {
  }

  lemma OneGoesOut(c: Client, e: Emitted)
    requires c.ready && Below(c)
    ensures
      var d := EmitObject(c, e);
      && d.buffer == c.buffer && |d.wire| == |c.wire| + 1 && d.wire[..|c.wire|] == c.wire
      && WentOut(d, e, d.wire[|c.wire|]) && StillKnows(c, d, [e]) && Below(d)
  {
    assert [e][0] == e;
  }

  // A flush sends the events of the buffer, each once, in order.
  lemma {:induction false} FlushGoesOut(c: Client)
    requires c.ready && Below(c) && Distinct(c.buffer)
    ensures
      var d := Flush(c);
      && |d.wire| == |c.wire| + |c.buffer| && d.wire[..|c.wire|] == c.wire
      && (forall i | 0 <= i < |c.buffer| :: WentOut(d, c.buffer[i], d.wire[|c.wire| + i]))
      && StillKnows(c, d, c.buffer)
    decreases |c.buffer|
  {
    hide WentOut, EmitObject;
    if c.buffer != [] {
      var e, rest := c.buffer[0], c.buffer[1..];
      var b := c.(buffer := rest);
      var d := EmitObject(b, e);
      OneGoesOut(b, e);
      FlushGoesOut(d);
      var f := Flush(d);
      assert f.wire[|c.wire|] == f.wire[..|d.wire|][|c.wire|] == d.wire[|c.wire|];
      WentOutStill(d, f, e, d.wire[|c.wire|], rest);
      forall i | 0 <= i < |c.buffer| ensures WentOut(f, c.buffer[i], f.wire[|c.wire| + i]) {
        if i > 0 { assert c.buffer[i] == rest[i - 1] && f.wire[|c.wire| + i] == f.wire[|d.wire| + (i - 1)]; }
      }
      assert f.wire[..|c.wire|] == f.wire[..|d.wire|][..|c.wire|] == d.wire[..|c.wire|];
      KnowsTwice(c, d, f, e, rest);
    }
  }

  lemma KnowsTwice(c: Client, d: Client, f: Client, e: Emitted, rest: seq<Emitted>)
    requires StillKnows(c.(buffer := rest), d, [e]) && StillKnows(d, f, rest) && c.buffer == [e] + rest
    ensures StillKnows(c, f, c.buffer)
  {
    forall id | id in c.events.cids && forall i | 0 <= i < |c.buffer| :: c.buffer[i].id != id
      ensures id in f.events.cids && f.events.cids[id] == c.events.cids[id]
    {
      assert c.buffer[0].id != id;
      forall i | 0 <= i < |rest| ensures rest[i].id != id { assert c.buffer[i + 1] == rest[i]; }
    }
  }

  // On an open connection what a page emits goes out at once, behind the events that
  // waited and in their order: a publication as one message with its channel and its
  // data, and so each other event, with a call id exactly if it has a callback.
  lemma EmitGoesOut(c: Client, what: UserEvent, callback: bool)
    requires Inv(c) && Tried(c) && c.conn == Open && c.ready
    ensures
      var d := After(c, DoEmit(what, callback)); var n, k := |c.wire|, |c.buffer|;
      && |d.wire| == n + k + 1 && d.wire[..n] == c.wire && d.conn == Open
      && (forall i | 0 <= i < k :: WentOut(d, c.buffer[i], d.wire[n + i]))
      && WentOut(d, Emitted(c.nextId, what), d.wire[n + k])
      && (c.nextId in d.events.callbacks <==> callback)
  {
    var b := Buffer(c, what, callback);
    EmitReady(c, what, callback);
    BufferInv(c, what, callback);
    InvBase(b);
    assert Distinct(b.buffer) && Below(b) by { BaseBuffer(b); }
    assert c.nextId !in c.events.callbacks by { InvBase(c); BaseBuffer(c); }
    hide Inv, Tried, Base, WentOut;
    FlushGoesOut(b);
    var d := Flush(b);
    forall i | 0 <= i < |c.buffer| ensures WentOut(d, c.buffer[i], d.wire[|c.wire| + i]) { assert b.buffer[i] == c.buffer[i]; }
    assert b.buffer[|c.buffer|] == Emitted(c.nextId, what);
  }

  lemma EmitReady(c: Client, what: UserEvent, callback: bool)
    requires c.conn == Open
    ensures After(c, DoEmit(what, callback)) == Flush(Buffer(c, what, callback))
  {
    hide Flush;
  }

  lemma BaseBuffer(c: Client)
    requires Base(c)
    ensures Distinct(c.buffer) && Below(c) && c.nextId !in c.events.callbacks
  {
    hide IssuedOk, FiredOk, UsersOk, OnePlace;
    assert c.events.callbacks <= c.events.asked;
  }

  // What was emitted while there was no connection goes out when the handshake is
  // answered, behind the requests for the channels, in order and each once.
  lemma BufferGoesOut(c: Client, d: Client, rid: nat, order: seq<string>)
    requires Inv(c) && Tried(c) && NoStale(c) && c.conn == Connecting && c.ready
    requires rid in c.calls && c.calls[rid] == Handshake && ListsPending(c, order)
    requires d == After(c, Answered(rid, true, order))
    ensures
      var n := |c.wire| + |order|;
      |d.wire| == n + |c.buffer| && forall i | 0 <= i < |c.buffer| :: WentOut(d, c.buffer[i], d.wire[n + i])
  {
    hide Inv, Tried, NoStale, ListsPending, AllUntried, Flush, ProcessPending, WentOut;
    var open := c.(calls := c.calls - {rid}, conn := Open);
    OpenedInv(c, rid);
    OrderIsWanted(c, order);
    assert AllUntried(open, order) by { UntriedSame(c.(conn := Open), open, order); }
    ProcessReady(open, order);
    RequestsOfAll(order, open.cid);
    var p := ProcessPending(open, order);
    InvBase(p);
    BaseBuffer(p);
    FlushGoesOut(p);
    assert d == Flush(p);
  }

  // ---- the wire only grows -------------------------------------------------

  lemma CloseKeepsWire(c: Client)
    ensures OnClose(c).wire == c.wire
  {
  }

  lemma SendKeepsWire(c: Client, ev: Node.Event)
    ensures c.wire <= Send(c, ev).wire
  {
    CloseKeepsWire(c);
    hide OnClose;
  }

  lemma {:induction false} FlushKeepsWire(c: Client)
    ensures c.wire <= Flush(c).wire
    decreases |c.buffer|
  {
    hide Send;
    if c.buffer != [] {
      var e := c.buffer[0];
      var b := c.(buffer := c.buffer[1..]);
      var d := if e.id in b.events.callbacks then RegisterUser(b, e.id) else b;
      SendKeepsWire(d, if e.id in b.events.callbacks then ToEvent(e.what, Some(b.cid)) else ToEvent(e.what, None));
      FlushKeepsWire(EmitObject(b, e));
    }
  }

  lemma TryKeepsWire(c: Client, name: string)
    ensures c.wire <= TrySubscribe(c, name).wire
  {
    SendKeepsWire(Register(c, Channel(name)), Node.SubscribeEvent(Some(c.cid), name, false));
    hide Send;
  }

  lemma {:induction false} ProcessKeepsWire(c: Client, order: seq<string>)
    ensures c.wire <= ProcessPending(c, order).wire
    decreases |order|
  {
    hide TrySubscribe;
    if order != [] {
      TryKeepsWire(c, order[0]);
      ProcessKeepsWire(TrySubscribe(c, order[0]), order[1..]);
    }
  }

  lemma OpenKeepsWire(c: Client, order: seq<string>)
    ensures c.wire <= OnOpen(c, order).wire
  {
    hide ProcessPending, Flush;
    ProcessKeepsWire(c.(conn := Open), order);
    FlushKeepsWire(ProcessPending(c.(conn := Open), order));
  }

  lemma AnswerKeepsWire(c: Client, rid: int, ok: bool, order: seq<string>)
    ensures c.wire <= OnAnswer(c, rid, ok, order).wire
  {
    hide OnOpen, OnClose;
    if rid >= 0 && rid in c.calls {
      var d := c.(calls := c.calls - {rid});
      OpenKeepsWire(d, order);
      CloseKeepsWire(d);
    }
  }

  lemma TokenKeepsWire(c: Client, order: seq<string>)
    ensures c.wire <= After(c, TokenSet(order)).wire
  {
    hide ProcessPending, Send;
    ProcessKeepsWire(c, order);
    SendKeepsWire(ProcessPending(c, order), Node.Unknown(None, ""));
  }

  lemma UnsubscribeKeepsWire(c: Client, name: string)
    ensures c.wire <= Unsubscribe(c, name).wire
  {
    hide Send;
    var d := CancelCall(SetChan(c, name, ChanOf(c, name).(state := Unsubscribed)), name);
    SendKeepsWire(d, Node.UnsubscribeEvent(None, name));
  }

  // Until the next connection nothing sent is taken back.
  lemma StepKeepsWire(c: Client, step: Step)
    requires Can(c, step) && c.conn != Closed
    ensures c.wire <= After(c, step).wire
  {
    hide Send, Flush, OnClose, TrySubscribe, ProcessPending, OnAnswer, Without, ListsPending;
    match step
    case DoSubscribe(name) => TryKeepsWire(SetChan(c, name, ChanOf(c, name).(state := Pending)), name);
    case DoUnsubscribe(name) => UnsubscribeKeepsWire(c, name);
    case DoEmit(what, callback) => FlushKeepsWire(Buffer(c, what, callback));
    case DoDisconnect =>
      SendKeepsWire(c, Node.Disconnect);
      CloseKeepsWire(Send(c, Node.Disconnect));
      CloseKeepsWire(c);
    case Opened(auth) => SendKeepsWire(Register(c.(ready := true), Handshake), Node.Handshake(Some(c.cid), auth));
    case Answered(rid, ok, order) => AnswerKeepsWire(c, rid, ok, order);
    case TokenSet(order) => TokenKeepsWire(c, order);
    case ClosedNow => CloseKeepsWire(c);
    case _ =>
  }
}
