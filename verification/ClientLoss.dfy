// A lost subscription: how it comes about, and when it ends. The channel keeps the id
// of a call that nobody waits for, and with it no subscription is tried.
module ClientLoss {
  import opened Prelude
  import opened Client
  import opened ClientRuns
  import opened ClientChannels
  import Auth
  import Node

  ghost predicate Stale(c: Client, name: string) {
    name in c.channels && c.channels[name].call.Some? && c.channels[name].call.value !in c.calls
  }

  // ---- when it ends --------------------------------------------------------

  ghost predicate Closes(c: Client, d: Client) { c.conn != Closed && d.conn == Closed }

  // The channel keeps its call id unless the connection is closed, and calls get new
  // ids only.
  ghost predicate KeepsId(c: Client, d: Client, name: string) {
    name in c.channels ==>
      && name in d.channels && c.cid <= d.cid
      && (forall k | k in d.calls :: k in c.calls || k >= c.cid)
      && d.channels[name].call == if Closes(c, d) then None else c.channels[name].call
  }

  lemma KeepsTwice(c: Client, d: Client, e: Client, name: string)
    requires KeepsId(c, d, name) && KeepsId(d, e, name) && (d.conn == Closed ==> e.conn == Closed)
    requires c.conn == Closed ==> d.conn == Closed || e.conn != Closed
    ensures KeepsId(c, e, name)
  {
  }

  lemma {:induction false} AbortKeepsIds(c: Client, k: nat, name: string)
    requires name in c.channels && c.channels[name].call == None
    ensures var r := AbortCalls(c, k);
      name in r.channels && r.channels[name].call == None && r.calls.Keys <= c.calls.Keys && r.cid == c.cid
    decreases c.cid - k
  {
    if k < c.cid {
      AbortKeepsIds(if k in c.calls then FailCall(c.(calls := c.calls - {k}), c.calls[k]) else c, k + 1, name);
    }
  }

  lemma CloseDropsId(c: Client, name: string)
    ensures KeepsId(c, OnClose(c), name)
  {
    if name in c.channels && c.conn != Closed {
      var s := Suspend(c.(conn := Closed));
      assert s.channels[name] == Suspended(c.channels[name]);
      assert s.calls.Keys <= c.calls.Keys && s.cid == c.cid;
      hide Suspend, AbortCalls, AbortBuffer;
      AbortKeepsIds(AbortBuffer(s), 0, name);
    }
  }

  lemma SendKeepsId(c: Client, ev: Node.Event, name: string)
    ensures KeepsId(c, Send(c, ev), name) && (c.conn == Closed ==> Send(c, ev).conn == Closed)
  {
    CloseDropsId(c, name);
    hide OnClose;
  }

  lemma {:induction false} FlushKeepsId(c: Client, name: string)
    ensures KeepsId(c, Flush(c), name) && (c.conn == Closed ==> Flush(c).conn == Closed)
    decreases |c.buffer|
  {
    hide Send;
    if c.buffer != [] {
      var e := c.buffer[0];
      var b := c.(buffer := c.buffer[1..]);
      var d := if e.id in b.events.callbacks then RegisterUser(b, e.id) else b;
      var s := EmitObject(b, e);
      SendKeepsId(d, if e.id in b.events.callbacks then ToEvent(e.what, Some(b.cid)) else ToEvent(e.what, None), name);
      KeepsTwice(c, d, s, name);
      FlushKeepsId(s, name);
      KeepsTwice(c, s, Flush(s), name);
    }
  }

  // While a channel has a call id, no subscription of it is tried; other channels do
  // not matter to it.
  lemma TryKeepsId(c: Client, other: string, name: string)
    requires name in c.channels && (c.conn == Closed || c.channels[name].call.Some?)
    ensures KeepsId(c, TrySubscribe(c, other), name) && (c.conn == Closed ==> TrySubscribe(c, other).conn == Closed)
  {
    hide Send;
    if c.conn == Open && ChanOf(c, other).call.None? {
      var d := Register(c, Channel(other));
      SendKeepsId(d, Node.SubscribeEvent(Some(c.cid), other, false), name);
    }
  }

  lemma {:induction false} ProcessKeepsId(c: Client, order: seq<string>, name: string)
    requires name in c.channels && (c.conn == Closed || c.channels[name].call.Some?)
    ensures KeepsId(c, ProcessPending(c, order), name) && (c.conn == Closed ==> ProcessPending(c, order).conn == Closed)
    decreases |order|
  {
    hide TrySubscribe;
    if order != [] {
      var d := TrySubscribe(c, order[0]);
      TryKeepsId(c, order[0], name);
      ProcessKeepsId(d, order[1..], name);
      KeepsTwice(c, d, ProcessPending(d, order[1..]), name);
    }
  }

  lemma OpenKeepsId(c: Client, order: seq<string>, name: string)
    requires name in c.channels && c.channels[name].call.Some? && c.conn != Closed
    ensures KeepsId(c, OnOpen(c, order), name)
  {
    hide ProcessPending, Flush;
    var o := c.(conn := Open);
    var d := ProcessPending(o, order);
    ProcessKeepsId(o, order, name);
    KeepsTwice(c, o, d, name);
    FlushKeepsId(d, name);
    if d.conn == Open { KeepsTwice(c, d, Flush(d), name); }
  }

  lemma AnswerKeepsId(c: Client, rid: int, ok: bool, order: seq<string>, name: string)
    requires Inv(c) && Stale(c, name) && c.conn != Closed
    ensures KeepsId(c, OnAnswer(c, rid, ok, order), name)
  {
    if rid >= 0 && rid in c.calls {
      var d := c.(calls := c.calls - {rid});
      assert c.calls[rid] != Channel(name) by { InvBase(c); }
      hide Inv, OnOpen, OnClose;
      if c.calls[rid] == Handshake {
        OpenKeepsId(d, order, name);
        CloseDropsId(d, name);
        KeepsTwice(c, d, OnAnswer(c, rid, ok, order), name);
      }
    }
  }

  lemma UnsubscribeKeepsId(c: Client, other: string, name: string)
    requires Stale(c, name) && (other != name || ChanOf(c, name).state == Unsubscribed)
    ensures KeepsId(c, Unsubscribe(c, other), name)
  {
    hide Send;
    if ChanOf(c, other).state != Unsubscribed {
      var d := CancelCall(SetChan(c, other, ChanOf(c, other).(state := Unsubscribed)), other);
      assert KeepsId(c, d, name);
      SendKeepsId(d, Node.UnsubscribeEvent(None, other), name);
    }
  }

  lemma DisconnectKeepsId(c: Client, name: string)
    ensures KeepsId(c, After(c, DoDisconnect), name)
  {
    hide Send, OnClose;
    var s := Send(c, Node.Disconnect);
    SendKeepsId(c, Node.Disconnect, name);
    CloseDropsId(s, name);
    CloseDropsId(c, name);
    if c.conn == Open { KeepsTwice(c, s, OnClose(s), name); }
  }

  lemma EmitKeepsId(c: Client, what: UserEvent, callback: bool, name: string)
    ensures KeepsId(c, Emit(c, what, callback), name)
  {
    hide Flush;
    var d := Buffer(Connect(c), what, callback);
    FlushKeepsId(d, name);
    if d.conn == Open { KeepsTwice(c, d, Flush(d), name); }
  }

  lemma TokenKeepsId(c: Client, order: seq<string>, name: string)
    requires Stale(c, name) && c.conn == Open
    ensures KeepsId(c, After(c, TokenSet(order)), name)
  {
    hide ProcessPending, Send;
    var d := ProcessPending(c, order);
    ProcessKeepsId(c, order, name);
    SendKeepsId(d, Node.Unknown(None, ""), name);
    if d.conn == Open { KeepsTwice(c, d, Send(d, Node.Unknown(None, "")), name); }
  }

  lemma OpenedKeepsId(c: Client, auth: Option<Auth.Signed>, name: string)
    requires Can(c, Opened(auth))
    ensures KeepsId(c, After(c, Opened(auth)), name)
  {
    var d := Register(c.(ready := true), Handshake);
    SendKeepsId(d, Node.Handshake(Some(c.cid), auth), name);
    hide Send;
    KeepsTwice(c, d, After(c, Opened(auth)), name);
  }

  lemma StepKeepsId(c: Client, step: Step, name: string)
    requires Inv(c) && Can(c, step) && Stale(c, name)
    requires step == DoUnsubscribe(name) ==> c.channels[name].state == Unsubscribed
    ensures KeepsId(c, After(c, step), name)
  {
    hide Inv, ListsPending, TrySubscribe, Send, OnClose, Flush, Without;
    match step
    case DoSubscribe(other) =>
      var d := SetChan(c, other, ChanOf(c, other).(state := Pending));
      TryKeepsId(d, other, name);
      KeepsTwice(c, d, TrySubscribe(d, other), name);
    case DoUnsubscribe(other) => UnsubscribeKeepsId(c, other, name);
    case DoEmit(what, callback) => EmitKeepsId(c, what, callback, name);
    case DoDisconnect => DisconnectKeepsId(c, name);
    case Opened(auth) => OpenedKeepsId(c, auth, name);
    case Answered(rid, ok, order) => AnswerKeepsId(c, rid, ok, order, name);
    case TokenSet(order) => TokenKeepsId(c, order, name);
    case ClosedNow => CloseDropsId(c, name);
    case _ =>
  }

  lemma KeptIsStale(c: Client, d: Client, name: string)
    requires Inv(c) && Stale(c, name) && KeepsId(c, d, name)
    ensures Stale(d, name) <==> !Closes(c, d)
  {
    InvBase(c);
    assert c.channels[name].call.value < c.cid by { BaseIds(c, name); }
    hide Base, Inv;
  }

  lemma BaseIds(c: Client, name: string)
    requires Base(c) && name in c.channels && c.channels[name].call.Some?
    ensures c.channels[name].call.value < c.cid
  {
  }

  lemma CancelledIsNotStale(c: Client, name: string)
    requires Inv(c) && Tried(c) && Stale(c, name) && c.channels[name].state != Unsubscribed
    ensures !Stale(Unsubscribe(c, name), name)
  {
    CancelIs(c, name);
    var d := Cancelled(c, name);
    SendKeepsId(d, Node.UnsubscribeEvent(None, name), name);
    hide Send, Inv, Tried;
  }

  // The loss lasts exactly as long as the connection is not closed and the page does
  // not unsubscribe the channel; until then the channel has no request out.
  lemma StuckUntil(c: Client, step: Step, name: string)
    requires Inv(c) && Tried(c) && Can(c, step) && Stale(c, name)
    ensures !CallsChannel(c, name)
    ensures Stale(After(c, step), name) <==>
      !Closes(c, After(c, step)) && !(step == DoUnsubscribe(name) && c.channels[name].state != Unsubscribed)
  {
    assert !CallsChannel(c, name) by { InvBase(c); }
    hide Inv, Tried, After, CallsChannel;
    if step == DoUnsubscribe(name) && c.channels[name].state != Unsubscribed {
      CancelledIsNotStale(c, name);
      assert After(c, step) == Unsubscribe(c, name) by { UnsubscribeStep(c, name); }
    } else {
      StepKeepsId(c, step, name);
      KeptIsStale(c, After(c, step), name);
    }
  }

  lemma UnsubscribeStep(c: Client, name: string)
    ensures After(c, DoUnsubscribe(name)) == Unsubscribe(c, name)
  {
  }

  // ---- how it comes about --------------------------------------------------

  lemma {:induction false} RunJoin(c: Client, a: seq<Step>, b: seq<Step>)
    requires Possible(c, a) && Possible(Run(c, a), b)
    ensures Possible(c, a + b) && Run(c, a + b) == Run(Run(c, a), b)
    decreases |a|
  {
    hide After, Can;
    if a == [] {
      assert a + b == b;
    } else {
      assert (a + b)[1..] == a[1..] + b;
      RunJoin(After(c, a[0]), a[1..], b);
    }
  }

  // A connection from the start to the answer of its handshake, call `k`.
  function Joining(k: nat, order: seq<string>): seq<Step> {
    [DoConnect, Opened(None), Answered(k, true, order)]
  }

  lemma {:induction false} NothingTried(c: Client, order: seq<string>)
    requires forall i | 0 <= i < |order| :: ChanOf(c, order[i]).call.Some?
    ensures ProcessPending(c, order) == c
    decreases |order|
  {
    if order != [] {
      assert ChanOf(c, order[0]).call.Some?;
      assert forall i | 0 <= i < |order| - 1 :: order[1..][i] == order[i + 1];
      NothingTried(c, order[1..]);
    }
  }

  lemma ThreeSteps(c: Client, s0: Step, c1: Client, s1: Step, c2: Client, s2: Step)
    requires Can(c, s0) && After(c, s0) == c1 && Can(c1, s1) && After(c1, s1) == c2 && Can(c2, s2)
    ensures Possible(c, [s0, s1, s2]) && Run(c, [s0, s1, s2]) == After(c2, s2)
  {
    hide After, Can;
    assert [s0, s1, s2][1..] == [s1, s2] && [s1, s2][1..] == [s2] && [s2][1..] == [];
    assert Possible(After(c2, s2), []);
    assert Possible(c2, [s2]) && Run(c2, [s2]) == After(c2, s2);
    assert Possible(c1, [s1, s2]) && Run(c1, [s1, s2]) == After(c2, s2);
  }

  // A client joins whose pending channels all have a call id: nothing but the
  // handshake is sent.
  lemma Joins(c: Client, order: seq<string>)
    requires c.conn == Closed && c.buffer == [] && ListsPending(c, order)
    requires forall i | 0 <= i < |order| :: ChanOf(c, order[i]).call.Some?
    ensures Possible(c, Joining(c.cid, order))
    ensures Run(c, Joining(c.cid, order)) == c.(
      conn := Open, ready := true, calls := map[], cid := c.cid + 1, issued := c.issued + [c.cid],
      wire := [Node.Handshake(Some(c.cid), None)])
  {
    var c1 := c.(conn := Connecting, ready := false, calls := map[], wire := []);
    var c2 := Register(c1.(ready := true), Handshake).(wire := [Node.Handshake(Some(c.cid), None)]);
    var c3 := c2.(calls := map[], conn := Open);
    var s0, s1, s2 := DoConnect, Opened(None), Answered(c.cid, true, order);
    assert After(c, s0) == c1;
    assert After(c1, s1) == c2;
    assert c2.calls - {c.cid} == map[];
    assert forall name :: IsPending(c2, name) == IsPending(c, name);
    NothingTried(c3, order);
    assert After(c2, s2) == c3;
    assert Can(c, s0) && Can(c1, s1) && Can(c2, s2);
    ThreeSteps(c, s0, c1, s1, c2, s2);
  }

  // The page subscribes twice on a WebSocket that has begun to close.
  function Losing(name: string): seq<Step> { [Closing, DoSubscribe(name), DoSubscribe(name)] }

  lemma Loss(c: Client, name: string)
    requires Inv(c) && Tried(c) && c.conn == Open && c.channels == map[]
    ensures Possible(c, Losing(name))
    ensures var d := Run(c, Losing(name));
      d.conn == Closed && d.buffer == [] && d.cid == c.cid + 1 && d.channels == map[name := Chan(Pending, Some(c.cid))]
  {
    hide Inv, Tried, TrySubscribe;
    var s0, s1 := Closing, DoSubscribe(name);
    var c1 := c.(ready := false);
    ReadyOnly(c);
    var lost := Subscribe(c1, name);
    SubscribeDying(c1, name);
    assert After(c, s0) == c1;
    assert After(c1, s1) == lost;
    var c3 := SetChan(lost, name, Chan(Pending, Some(c.cid)));
    NotTried(c3, name);
    assert After(lost, s1) == c3;
    ThreeSteps(c, s0, c1, s1, lost, s1);
  }

  lemma PendingInv(c: Client, name: string)
    requires Inv(c) && name !in c.channels
    ensures Inv(SetChan(c, name, Chan(Pending, None)))
  {
    SetChanInv(c, name, Chan(Pending, None));
  }

  lemma SubscribeDying(c: Client, name: string)
    requires Inv(c) && c.conn == Open && !c.ready && c.channels == map[]
    ensures
      var d := Subscribe(c, name);
      d.conn == Closed && d.buffer == [] && d.cid == c.cid + 1 && d.channels == map[name := Chan(Unsubscribed, Some(c.cid))]
  {
    var pending := SetChan(c, name, Chan(Pending, None));
    hide Inv, Tried, TrySubscribe;
    assert Inv(pending) by { PendingInv(c, name); }
    TrySubscribeDying(pending, name);
    DyingCid(pending, name);
    var d := Subscribe(c, name);
    assert d.channels.Keys == {name};
  }

  lemma DyingCid(c: Client, name: string)
    requires Untried(c, name)
    ensures TrySubscribe(c, name).cid == c.cid + 1
  {
    hide OnClose;
  }

  // A subscription is lost: on a new connection the channel, wanted again, has no
  // request out, while the client waits for no answer.
  lemma LostUntilClose(name: string)
    ensures
      var steps := Joining(1, []) + Losing(name) + Joining(3, [name]);
      var c := Run(NewClient(), steps);
      && Possible(NewClient(), steps) && c.conn == Open && c.ready
      && name in Wanted(c) && Stale(c, name) && c.calls == map[]
      && c.wire == [Node.Handshake(Some(3), None)]
  {
    hide Run, Possible, After, Can, Inv, Tried;
    var c0 := NewClient();
    assert Inv(c0) && Tried(c0) by { NewInv(); }
    var a, b, e := Joining(1, []), Losing(name), Joining(3, [name]);
    Joins(c0, []);
    var c1 := Run(c0, a);
    RunInv(c0, a);
    hide ListsPending;
    Loss(c1, name);
    var c2 := Run(c1, b);
    OnePending(c2, name);
    Joins(c2, [name]);
    RunJoin(c0, a, b);
    RunJoin(c0, a + b, e);
  }

  lemma NewInv()
    ensures Inv(NewClient()) && Tried(NewClient())
  {
  }

  lemma OnePending(c: Client, name: string)
    requires c.channels == map[name := Chan(Pending, Some(2))]
    ensures ListsPending(c, [name])
  {
  }
}
