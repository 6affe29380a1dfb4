// The channels a page wants, over closes and reconnects of its client.
module ClientChannels {
  import opened Prelude
  import opened Client
  import opened ClientRuns
  import Node

  // ---- wanted channels -----------------------------------------------------

  // What the page wants after a step, were nothing lost.
  function WantedAfter(c: Client, step: Step): set<string> {
    match step
    case DoSubscribe(name) => Wanted(c) + {name}
    case DoUnsubscribe(name) => Wanted(c) - {name}
    case Answered(rid, ok, _) =>
      if rid >= 0 && rid in c.calls && c.calls[rid].Channel? && !ok then Wanted(c) - {c.calls[rid].channel} else Wanted(c)
    case _ => Wanted(c)
  }

  // A subscription is sent on a WebSocket that is no longer open, before the client
  // has heard of it.
  ghost predicate Loses(c: Client, step: Step) {
    match step
    case DoSubscribe(name) => c.conn == Open && !c.ready && ChanOf(c, name) == Chan(Unsubscribed, None)
    case Answered(rid, ok, order) =>
      && rid >= 0 && rid in c.calls && c.calls[rid] == Handshake && ok && !c.ready
      && exists i :: 0 <= i < |order| && ChanOf(c, order[i]).call.None?
    case _ => false
  }

  lemma SameWanted(c: Client, d: Client)
    requires d.channels == c.channels
    ensures Wanted(d) == Wanted(c)
  {
  }

  lemma CloseWanted(c: Client)
    requires Inv(c)
    ensures Wanted(OnClose(c)) == Wanted(c)
  {
    CloseKeepsWanted(c);
  }

  lemma SendWanted(c: Client, ev: Node.Event)
    requires Inv(c)
    ensures Wanted(Send(c, ev)) == Wanted(c)
  {
    hide Inv;
    if c.ready { SameWanted(c, Send(c, ev)); } else { CloseWanted(c); }
  }

  lemma EmitObjectWanted(c: Client)
    requires Inv(c) && c.buffer != [] && c.conn == Open
    ensures Wanted(EmitObject(c.(buffer := c.buffer[1..]), c.buffer[0])) == Wanted(c)
  {
    hide Base, Inv, Tried;
    var b := c.(buffer := c.buffer[1..]);
    var e := c.buffer[0];
    var d := if e.id in b.events.callbacks then RegisterUser(b, e.id) else b;
    InvBase(c);
    if e.id in b.events.callbacks { BecomesCall(c, d); } else { LeavesBuffer(c, d); }
    NoChannelTouched(c, d);
    SameWanted(c, d);
    SendWanted(d, if e.id in b.events.callbacks then ToEvent(e.what, Some(b.cid)) else ToEvent(e.what, None));
  }

  lemma {:induction false} FlushWanted(c: Client)
    requires Inv(c) && Tried(c) && (c.conn == Open || c.buffer == [])
    ensures Wanted(Flush(c)) == Wanted(c)
    decreases |c.buffer|
  {
    hide Inv, Tried, EmitObject, Wanted;
    if c.buffer != [] {
      var d := EmitObject(c.(buffer := c.buffer[1..]), c.buffer[0]);
      EmitObjectInv(c);
      EmitObjectWanted(c);
      if d.conn != Open { EmitObjectOpen(c); }
      FlushWanted(d);
    }
  }

  lemma SubscribeWanted(c: Client, name: string)
    requires Inv(c) && Tried(c)
    ensures Wanted(Subscribe(c, name)) == Wanted(c) + {name} <==> !Loses(c, DoSubscribe(name))
  {
    if ChanOf(c, name).state == Unsubscribed {
      var d := SetChan(c, name, ChanOf(c, name).(state := Pending));
      assert ChanOk(d, d.channels[name]);
      SetChanInv(c, name, ChanOf(c, name).(state := Pending));
      hide Inv, TrySubscribe;
      assert Wanted(d) == Wanted(c) + {name};
      if Untried(d, name) {
        if c.ready {
          TrySubscribeReady(d, name);
          assert Wanted(TrySubscribe(d, name)) == Wanted(d);
        } else {
          TrySubscribeDying(d, name);
          assert name !in Wanted(TrySubscribe(d, name));
        }
      } else {
        assert TrySubscribe(d, name) == d by { NotTried(d, name); }
      }
    } else {
      assert Wanted(c) + {name} == Wanted(c);
    }
  }

  lemma NotTried(c: Client, name: string)
    requires !Untried(c, name) && name in c.channels && c.channels[name].state == Pending
    ensures TrySubscribe(c, name) == c
  {
  }

  // One after the other: as long as the socket is open every channel of the list
  // gets its request, and the list of requests is all that is sent.
  function Requests(order: seq<string>, k: nat): seq<Node.Event> {
    if order == [] then [] else [Node.SubscribeEvent(Some(k), order[0], false)] + Requests(order[1..], k + 1)
  }

  ghost predicate AllUntried(c: Client, order: seq<string>) {
    && (forall i | 0 <= i < |order| :: Untried(c, order[i]))
    && (forall i, j | 0 <= i < j < |order| :: order[i] != order[j])
  }

  lemma {:induction false} ProcessReady(c: Client, order: seq<string>)
    requires Inv(c) && c.conn == Open && c.ready && AllUntried(c, order)
    ensures var d := ProcessPending(c, order);
      && Inv(d) && d.conn == Open && d.ready && d.buffer == c.buffer
      && d.wire == c.wire + Requests(order, c.cid) && Wanted(d) == Wanted(c)
    decreases |order|
  {
    hide Inv;
    if order != [] {
      var d := TrySubscribe(c, order[0]);
      TrySubscribeReady(c, order[0]);
      assert Wanted(d) == Wanted(c);
      forall i | 0 <= i < |order| - 1 ensures Untried(d, order[1..][i]) {
        assert order[1..][i] == order[i + 1] && Untried(c, order[i + 1]);
      }
      ProcessReady(d, order[1..]);
    }
  }

  ghost predicate AllPending(c: Client, order: seq<string>) {
    forall i | 0 <= i < |order| :: order[i] in c.channels && c.channels[order[i]].state == Pending
  }

  lemma {:induction false} ProcessOff(c: Client, order: seq<string>)
    requires c.conn != Open
    ensures ProcessPending(c, order) == c
    decreases |order|
  {
    if order != [] { ProcessOff(c, order[1..]); }
  }

  lemma {:induction false} ProcessWanted(c: Client, order: seq<string>)
    requires Inv(c) && c.conn == Open && AllPending(c, order)
    ensures Wanted(ProcessPending(c, order)) == Wanted(c)
       <==> (c.ready || forall i | 0 <= i < |order| :: c.channels[order[i]].call.Some?)
    decreases |order|
  {
    hide Inv, TrySubscribe;
    if order != [] {
      var name := order[0];
      var d := TrySubscribe(c, name);
      assert forall i | 0 <= i < |order| - 1 :: order[1..][i] == order[i + 1];
      if !Untried(c, name) {
        NotTried(c, name);
        ProcessWanted(c, order[1..]);
        assert !c.ready && (forall i | 0 <= i < |order| - 1 :: c.channels[order[1..][i]].call.Some?)
          ==> forall i | 0 <= i < |order| :: c.channels[order[i]].call.Some? by {
          forall i | 0 < i < |order| ensures order[i] == order[1..][i - 1] { }
        }
      } else if c.ready {
        TrySubscribeReady(c, name);
        assert Wanted(d) == Wanted(c);
        ProcessWanted(d, order[1..]);
      } else {
        TrySubscribeDying(c, name);
        ProcessOff(d, order[1..]);
        assert name in Wanted(c) && name !in Wanted(d);
      }
    }
  }

  lemma UnsubscribeWanted(c: Client, name: string)
    requires Inv(c) && Tried(c)
    ensures Wanted(Unsubscribe(c, name)) == Wanted(c) - {name}
  {
    if ChanOf(c, name).state != Unsubscribed {
      CancelIs(c, name);
      CancelledInv(c, name);
      hide Inv, Tried;
      var d := Cancelled(c, name);
      assert Wanted(d) == Wanted(c) - {name};
      hide Wanted, Cancelled;
      if d.conn == Open { SendWanted(d, Node.UnsubscribeEvent(None, name)); }
    }
  }

  lemma OpenWanted(c: Client, order: seq<string>)
    requires Inv(c) && c.conn != Closed && ListsPending(c, order)
    ensures Wanted(OnOpen(c, order)) == Wanted(c)
       <==> (c.ready || forall i | 0 <= i < |order| :: ChanOf(c, order[i]).call.Some?)
  {
    var d := c.(conn := Open);
    ConnOnly(c, d);
    assert Inv(d);
    assert ListsPending(d, order) by { assert forall name :: IsPending(d, name) == IsPending(c, name); }
    hide Inv, Tried, ListsPending;
    ProcessTried(d, order);
    ProcessPendingInv(d, order);
    ProcessWanted(d, order);
    SameWanted(c, d);
    if ProcessPending(d, order).conn == Open { FlushWanted(ProcessPending(d, order)); }
  }

  lemma AnswerWanted(c: Client, rid: int, ok: bool, order: seq<string>)
    requires Inv(c) && Tried(c) && c.conn != Closed && ListsPending(c, order)
    ensures Wanted(OnAnswer(c, rid, ok, order)) == WantedAfter(c, Answered(rid, ok, order)) <==> !Loses(c, Answered(rid, ok, order))
  {
    if rid >= 0 && rid in c.calls {
      var d := c.(calls := c.calls - {rid});
      match c.calls[rid]
      case Handshake =>
        HandshakeOver(c, rid);
        assert ListsPending(d, order) by { assert forall name :: IsPending(d, name) == IsPending(c, name); }
        SameWanted(c, d);
        hide Inv, Tried, ListsPending, Wanted, OnOpen, OnClose;
        if ok { OpenWanted(d, order); } else { CloseWanted(d); }
      case Channel(name) =>
        var chan := c.channels[name];
        assert chan.state == Pending;
        var e := SetChan(d, name, Chan(if ok then Subscribed else Unsubscribed, None));
        hide Inv;
        assert Wanted(e) == if ok then Wanted(c) else Wanted(c) - {name};
      case User(id) => SameWanted(c, d);
    }
  }

  // What the page wants changes only as the page asks and the server refuses -
  // through closes and reconnects - exactly when no subscription is sent on a
  // WebSocket that has already begun to close.
  lemma WantedExactly(c: Client, step: Step)
    requires Inv(c) && Tried(c) && Can(c, step)
    ensures Wanted(After(c, step)) == WantedAfter(c, step) <==> !Loses(c, step)
  {
    hide Inv, Tried, ListsPending, Wanted, OnClose, Flush;
    match step
    case DoSubscribe(name) => SubscribeWanted(c, name);
    case DoUnsubscribe(name) => UnsubscribeWanted(c, name);
    case DoEmit(what, callback) => EmitWanted(c, what, callback);
    case DoConnect => SameWanted(c, Connect(c));
    case DoDisconnect =>
      SendInv(c, Node.Disconnect);
      SendWanted(c, Node.Disconnect);
      CloseWanted(Send(c, Node.Disconnect));
      CloseWanted(c);
    case Opened(auth) => SameWanted(c, SocketOpen(c, auth));
    case Answered(rid, ok, order) => AnswerWanted(c, rid, ok, order);
    case TokenSet(order) =>
      Listed(c, order);
      NothingUntried(c, order);
      SendWanted(c, Node.Unknown(None, ""));
    case TimedOut(id) => SameWanted(c, AckTimeout(c, id));
    case Closing => SameWanted(c, c.(ready := false));
    case ClosedNow => CloseWanted(c);
  }

  lemma EmitWanted(c: Client, what: UserEvent, callback: bool)
    requires Inv(c) && Tried(c)
    ensures Wanted(Emit(c, what, callback)) == Wanted(c)
  {
    hide Inv, Tried, Flush;
    ConnectInv(c);
    var d := Buffer(Connect(c), what, callback);
    BufferInv(Connect(c), what, callback);
    SameWanted(c, d);
    hide Wanted, Buffer, Connect;
    if d.conn == Open { FlushWanted(d); }
  }

  // ---- requests outstanding ------------------------------------------------

  // A channel that has a call id has a call.
  ghost predicate NoStale(c: Client) {
    forall name | name in c.channels && c.channels[name].call.Some? :: c.channels[name].call.value in c.calls
  }

  lemma StaleKept(c: Client, d: Client)
    requires NoStale(c) && Base(c) && d.channels == c.channels
    requires forall k | k in c.calls && c.calls[k].Channel? :: k in d.calls
    ensures NoStale(d)
  {
    forall name | name in d.channels && d.channels[name].call.Some? ensures d.channels[name].call.value in d.calls {
      BaseCall(c, name);
    }
  }

  lemma CloseNoStale(c: Client)
    requires Inv(c) && NoStale(c)
    ensures NoStale(OnClose(c))
  {
    hide Base;
    if c.conn != Closed { CloseKeepsWanted(c); }
  }

  lemma SendNoStale(c: Client, ev: Node.Event)
    requires Inv(c) && NoStale(c)
    ensures NoStale(Send(c, ev))
  {
    InvBase(c);
    hide Inv, Base, OnClose;
    if c.ready { StaleKept(c, Send(c, ev)); } else { CloseNoStale(c); }
  }

  lemma EmitObjectNoStale(c: Client)
    requires Inv(c) && NoStale(c) && c.buffer != [] && c.conn == Open
    ensures NoStale(EmitObject(c.(buffer := c.buffer[1..]), c.buffer[0]))
  {
    hide Base, Inv, Tried;
    var b := c.(buffer := c.buffer[1..]);
    var e := c.buffer[0];
    var d := if e.id in b.events.callbacks then RegisterUser(b, e.id) else b;
    InvBase(c);
    StaleKept(c, d);
    if e.id in b.events.callbacks { BecomesCall(c, d); } else { LeavesBuffer(c, d); }
    NoChannelTouched(c, d);
    hide NoStale;
    SendNoStale(d, if e.id in b.events.callbacks then ToEvent(e.what, Some(b.cid)) else ToEvent(e.what, None));
  }

  lemma {:induction false} FlushNoStale(c: Client)
    requires Inv(c) && Tried(c) && NoStale(c) && (c.conn == Open || c.buffer == [])
    ensures NoStale(Flush(c))
    decreases |c.buffer|
  {
    hide Inv, Tried, EmitObject, NoStale;
    if c.buffer != [] {
      var d := EmitObject(c.(buffer := c.buffer[1..]), c.buffer[0]);
      EmitObjectInv(c);
      EmitObjectNoStale(c);
      if d.conn != Open { EmitObjectOpen(c); }
      FlushNoStale(d);
    }
  }

  // Trying a channel while the socket is open leaves no stale call.
  lemma TryNoStale(c: Client, name: string)
    requires Inv(c) && NoStale(c) && (Untried(c, name) ==> c.ready) && IsPending(c, name)
    ensures NoStale(TrySubscribe(c, name))
  {
    InvBase(c);
    hide Inv, Base;
    if Untried(c, name) {
      TrySubscribeReady(c, name);
      hide TrySubscribe;
      var d := TrySubscribe(c, name);
      forall other | other in d.channels && d.channels[other].call.Some? ensures d.channels[other].call.value in d.calls {
        if other != name { assert c.channels[other].call.value in c.calls; }
      }
    } else {
      NotTried(c, name);
    }
  }

  lemma SubscribeNoStale(c: Client, name: string)
    requires Inv(c) && Tried(c) && NoStale(c) && !Loses(c, DoSubscribe(name))
    ensures NoStale(Subscribe(c, name))
  {
    if ChanOf(c, name).state == Unsubscribed {
      var d := SetChan(c, name, ChanOf(c, name).(state := Pending));
      assert ChanOk(d, d.channels[name]);
      SetChanInv(c, name, ChanOf(c, name).(state := Pending));
      assert NoStale(d);
      hide Inv, TrySubscribe, NoStale;
      TryNoStale(d, name);
    }
  }

  lemma UnsubscribeNoStale(c: Client, name: string)
    requires Inv(c) && Tried(c) && NoStale(c)
    ensures NoStale(Unsubscribe(c, name))
  {
    if ChanOf(c, name).state != Unsubscribed {
      CancelIs(c, name);
      CancelledInv(c, name);
      CancelledNoStale(c, name);
      hide Inv, Tried, NoStale, Cancelled;
      var d := Cancelled(c, name);
      if d.conn == Open { SendNoStale(d, Node.UnsubscribeEvent(None, name)); }
    }
  }

  lemma CancelledNoStale(c: Client, name: string)
    requires Inv(c) && NoStale(c) && name in c.channels
    ensures NoStale(Cancelled(c, name))
  {
    var d := Cancelled(c, name);
    InvBase(c);
    hide Base, Inv;
    forall other | other in d.channels && d.channels[other].call.Some? ensures d.channels[other].call.value in d.calls {
      BaseCall(c, other);
      if c.channels[name].call.Some? { BaseCall(c, name); }
    }
  }

  lemma {:induction false} ProcessNoStale(c: Client, order: seq<string>)
    requires Inv(c) && NoStale(c) && c.conn == Open && AllPending(c, order)
    requires c.ready || forall i | 0 <= i < |order| :: c.channels[order[i]].call.Some?
    ensures NoStale(ProcessPending(c, order))
    decreases |order|
  {
    hide Inv, TrySubscribe, NoStale;
    if order != [] {
      var name := order[0];
      assert forall i | 0 <= i < |order| - 1 :: order[1..][i] == order[i + 1];
      TryNoStale(c, name);
      if Untried(c, name) { TrySubscribeReady(c, name); } else { NotTried(c, name); }
      ProcessNoStale(TrySubscribe(c, name), order[1..]);
    }
  }

  lemma OpenNoStale(c: Client, order: seq<string>)
    requires Inv(c) && NoStale(c) && c.conn != Closed && ListsPending(c, order)
    requires c.ready || forall i | 0 <= i < |order| :: ChanOf(c, order[i]).call.Some?
    ensures NoStale(OnOpen(c, order))
  {
    var d := c.(conn := Open);
    ConnOnly(c, d);
    assert Inv(d) && NoStale(d);
    assert ListsPending(d, order) by { assert forall name :: IsPending(d, name) == IsPending(c, name); }
    hide Inv, Tried, ListsPending, NoStale;
    ProcessTried(d, order);
    ProcessPendingInv(d, order);
    ProcessNoStale(d, order);
    if ProcessPending(d, order).conn == Open { FlushNoStale(ProcessPending(d, order)); }
  }

  lemma CallOver(c: Client, k: nat)
    requires Inv(c) && NoStale(c) && k in c.calls && !c.calls[k].Channel?
    ensures NoStale(c.(calls := c.calls - {k}))
  {
    StaleKept(c, c.(calls := c.calls - {k}));
  }

  lemma AnswerNoStale(c: Client, rid: int, ok: bool, order: seq<string>)
    requires Inv(c) && Tried(c) && NoStale(c) && c.conn != Closed && ListsPending(c, order)
    requires !Loses(c, Answered(rid, ok, order))
    ensures NoStale(OnAnswer(c, rid, ok, order))
  {
    if rid >= 0 && rid in c.calls {
      var d := c.(calls := c.calls - {rid});
      match c.calls[rid]
      case Handshake =>
        HandshakeOver(c, rid);
        CallOver(c, rid);
        assert ListsPending(d, order) by { assert forall name :: IsPending(d, name) == IsPending(c, name); }
        hide Inv, Tried, ListsPending, NoStale, OnOpen, OnClose;
        if ok { OpenNoStale(d, order); } else { CloseNoStale(d); }
      case Channel(name) =>
        InvBase(c);
        hide Inv, Base;
        forall other | other in c.channels && other != name && c.channels[other].call.Some?
          ensures c.channels[other].call.value in d.calls
        {
          BaseCall(c, other);
        }
      case User(id) => CallOver(c, rid);
    }
  }

  lemma StepNoStale(c: Client, step: Step)
    requires Inv(c) && Tried(c) && Can(c, step) && NoStale(c) && !Loses(c, step)
    ensures NoStale(After(c, step))
  {
    InvBase(c);
    hide Inv, Tried, ListsPending, OnClose, Flush, NoStale, Base;
    match step
    case DoSubscribe(name) => SubscribeNoStale(c, name);
    case DoUnsubscribe(name) => UnsubscribeNoStale(c, name);
    case DoEmit(what, callback) => EmitNoStale(c, what, callback);
    case DoConnect => ConnectNoStale(c);
    case DoDisconnect =>
      SendInv(c, Node.Disconnect);
      SendNoStale(c, Node.Disconnect);
      CloseNoStale(Send(c, Node.Disconnect));
      CloseNoStale(c);
    case Opened(auth) =>
      StaleKept(c, SocketOpen(c, auth));
    case Answered(rid, ok, order) => AnswerNoStale(c, rid, ok, order);
    case TokenSet(order) =>
      Listed(c, order);
      NothingUntried(c, order);
      SendNoStale(c, Node.Unknown(None, ""));
    case TimedOut(id) => StaleKept(c, AckTimeout(c, id));
    case Closing => StaleKept(c, c.(ready := false));
    case ClosedNow => CloseNoStale(c);
  }

  lemma ConnectNoStale(c: Client)
    requires Inv(c) && NoStale(c)
    ensures NoStale(Connect(c))
  {
  }

  lemma EmitNoStale(c: Client, what: UserEvent, callback: bool)
    requires Inv(c) && Tried(c) && NoStale(c)
    ensures NoStale(Emit(c, what, callback))
  {
    hide Inv, Tried, Flush, Connect;
    ConnectNoStale(c);
    ConnectInv(c);
    var d := Buffer(Connect(c), what, callback);
    BufferInv(Connect(c), what, callback);
    BufferedNoStale(Connect(c), d);
    hide NoStale, Buffer;
    if d.conn == Open { FlushNoStale(d); }
  }

  lemma BufferedNoStale(c: Client, d: Client)
    requires NoStale(c) && d.channels == c.channels && d.calls == c.calls
    ensures NoStale(d)
  {
  }

  // ---- main results --------------------------------------------------------

  // One request for the channel is out, and only one.
  ghost predicate OneCall(c: Client, name: string) {
    && (exists k :: k in c.calls && c.calls[k] == Channel(name))
    && (forall j, k | j in c.calls && k in c.calls && c.calls[j] == c.calls[k] == Channel(name) :: j == k)
  }

  // On an open connection every channel that the page wants is subscribed, or has
  // exactly one request out.
  lemma WantedIsRequested(c: Client, name: string)
    requires Inv(c) && Tried(c) && NoStale(c) && c.conn == Open && name in Wanted(c)
    ensures if c.channels[name].state == Subscribed then !CallsChannel(c, name) else OneCall(c, name)
  {
    var chan := c.channels[name];
    InvBase(c);
    assert ChanOk(c, chan);
    if chan.state == Pending {
      BaseCall(c, name);
      assert c.calls[chan.call.value] == Channel(name);
    }
    hide Base;
    forall k | k in c.calls && c.calls[k] == Channel(name) ensures chan.call == Some(k) { }
  }

  // The requests of a list of channels: one for each.
  lemma {:induction false} RequestsOfAll(order: seq<string>, k: nat)
    ensures |Requests(order, k)| == |order|
    ensures forall i | 0 <= i < |order| :: Requests(order, k)[i] == Node.SubscribeEvent(Some(k + i), order[i], false)
  {
    if order != [] { RequestsOfAll(order[1..], k + 1); }
  }

  lemma {:induction false} FlushSends(c: Client)
    requires c.ready
    ensures var d := Flush(c);
      d.channels == c.channels && c.wire <= d.wire && d.conn == c.conn
      && forall i | |c.wire| <= i < |d.wire| :: !d.wire[i].SubscribeEvent?
    decreases |c.buffer|
  {
    if c.buffer != [] {
      FlushSends(EmitObject(c.(buffer := c.buffer[1..]), c.buffer[0]));
    }
  }

  // What is sent on a connection that just opened, with all of `order` to be asked for.
  lemma OpenRequests(open: Client, order: seq<string>)
    requires Inv(open) && open.conn == Open && open.ready && AllUntried(open, order)
    ensures
      var d := Flush(ProcessPending(open, order));
      && ProcessPending(open, order).conn == Open && d.conn == Open && Wanted(d) == Wanted(open)
      && |open.wire| + |order| <= |d.wire|
      && (forall i | 0 <= i < |order| ::
            d.wire[|open.wire| + i] == Node.SubscribeEvent(Some(open.cid + i), order[i], false))
      && (forall i | |open.wire| + |order| <= i < |d.wire| :: !d.wire[i].SubscribeEvent?)
  {
    hide Inv, Wanted, Untried, Flush;
    ProcessReady(open, order);
    RequestsOfAll(order, open.cid);
    var p := ProcessPending(open, order);
    hide ProcessPending, AllUntried;
    FlushSends(p);
    SameWanted(p, Flush(p));
    var d := Flush(p);
    forall i | 0 <= i < |order| ensures d.wire[|open.wire| + i] == Node.SubscribeEvent(Some(open.cid + i), order[i], false) {
      assert d.wire[|open.wire| + i] == p.wire[|open.wire| + i] == Requests(order, open.cid)[i];
    }
  }

  lemma OrderIsWanted(c: Client, order: seq<string>)
    requires Inv(c) && NoStale(c) && c.conn == Connecting && ListsPending(c, order)
    ensures (set i | 0 <= i < |order| :: order[i]) == Wanted(c)
    ensures AllUntried(c.(conn := Open), order)
  {
    forall i | 0 <= i < |order| ensures Untried(c.(conn := Open), order[i]) {
      assert order[i] in order && IsPending(c, order[i]);
      assert ChanOk(c, c.channels[order[i]]);
    }
    forall name ensures name in Wanted(c) <==> name in order {
      assert name in order <==> IsPending(c, name);
      if name in c.channels { assert ChanOk(c, c.channels[name]); }
    }
  }

  // After a reconnect: when the handshake is answered, one `#subscribe` is sent for
  // every channel the page wants, each channel once, and no other.
  lemma ReconnectRequests(c: Client, d: Client, rid: nat, order: seq<string>)
    requires Inv(c) && Tried(c) && NoStale(c) && c.conn == Connecting && c.ready
    requires rid in c.calls && c.calls[rid] == Handshake && ListsPending(c, order)
    requires d == After(c, Answered(rid, true, order))
    ensures d.conn == Open && Wanted(d) == Wanted(c)
    ensures (set i | 0 <= i < |order| :: order[i]) == Wanted(c)
    ensures |c.wire| + |order| <= |d.wire|
    ensures forall i | 0 <= i < |order| :: d.wire[|c.wire| + i] == Node.SubscribeEvent(Some(c.cid + i), order[i], false)
    ensures forall i | |c.wire| + |order| <= i < |d.wire| :: !d.wire[i].SubscribeEvent?
  {
    hide Inv, Tried, NoStale, ListsPending, Wanted, AllUntried, Flush, ProcessPending;
    var open := c.(calls := c.calls - {rid}, conn := Open);
    OpenedInv(c, rid);
    OrderIsWanted(c, order);
    assert AllUntried(open, order) by { UntriedSame(c.(conn := Open), open, order); }
    SameWanted(c, open);
    OpenRequests(open, order);
    assert d == Flush(ProcessPending(open, order));
    hide After;
  }

  lemma UntriedSame(c: Client, d: Client, order: seq<string>)
    requires AllUntried(c, order) && d.channels == c.channels && d.conn == c.conn
    ensures AllUntried(d, order)
  {
    forall i | 0 <= i < |order| ensures Untried(d, order[i]) { assert Untried(c, order[i]); }
  }

  lemma OpenedInv(c: Client, rid: nat)
    requires Inv(c) && c.conn == Connecting && rid in c.calls && c.calls[rid] == Handshake
    ensures Inv(c.(calls := c.calls - {rid}, conn := Open))
  {
    HandshakeOver(c, rid);
    ConnOnly(c.(calls := c.calls - {rid}), c.(calls := c.calls - {rid}, conn := Open));
    hide Base;
  }

  // A run in which no subscription is lost.
  ghost predicate Lossless(c: Client, steps: seq<Step>)
    decreases |steps|
  {
    steps == [] || (!Loses(c, steps[0]) && Lossless(After(c, steps[0]), steps[1..]))
  }

  // At its end, if the connection is open, every channel the page wants is
  // subscribed or has exactly one request out.
  lemma {:induction false} LosslessRun(c: Client, steps: seq<Step>, name: string)
    requires Inv(c) && Tried(c) && NoStale(c) && Possible(c, steps) && Lossless(c, steps)
    ensures var d := Run(c, steps);
      NoStale(d) && (d.conn == Open && name in Wanted(d) && d.channels[name].state != Subscribed ==> OneCall(d, name))
    decreases |steps|
  {
    hide Inv, Tried, NoStale, Loses, After, Can, OneCall;
    if steps != [] {
      StepInv(c, steps[0]);
      StepNoStale(c, steps[0]);
      LosslessRun(After(c, steps[0]), steps[1..], name);
    } else if c.conn == Open && name in Wanted(c) {
      WantedIsRequested(c, name);
    }
  }
}
