// The client as it runs: an object with fields, each method proved to do what the
// step function of Client.dfy says.
module ClientObject {
  import opened Prelude
  import opened Auth
  import opened C = Client
  import Node

  // The calls of the pending subscriptions of some channels.
  ghost function CallsAmong(c: Client, names: set<string>): set<nat>
    requires names <= c.channels.Keys
  {
    set name | name in names && c.channels[name].call.Some? :: c.channels[name].call.value
  }

  lemma NoCallsAmong(c: Client)
    ensures c.calls - CallsAmong(c, {}) == c.calls
  {
  }

  lemma AllCalls(c: Client)
    ensures CallsAmong(c, c.channels.Keys) == PendingCalls(c)
  {
  }

  lemma CallsWith(c: Client, names: set<string>, name: string)
    requires names <= c.channels.Keys && name in c.channels
    ensures
      var call := c.channels[name].call;
      c.calls - CallsAmong(c, names + {name})
        == if call.Some? then c.calls - CallsAmong(c, names) - {call.value} else c.calls - CallsAmong(c, names)
  {
    var call := c.channels[name].call;
    assert CallsAmong(c, names + {name}) == CallsAmong(c, names) + if call.Some? then {call.value} else {};
  }

  class ScClient {
    var conn: Conn
    var ready: bool
    var channels: map<string, Chan>
    var cid: nat
    var calls: map<nat, Owner>
    var buffer: seq<Emitted>
    var nextId: nat
    var wire: seq<Node.Event>
    var timers: set<nat>        // events whose timer runs
    var callbacks: set<nat>     // events that have a callback
    var cids: map<nat, nat>     // the call ids of events
    ghost var asked: set<nat>   // events that were emitted with a callback
    ghost var fired: seq<nat>   // callbacks called
    ghost var issued: seq<nat>

    ghost function View(): Client
      reads this
    {
      Client(conn, ready, channels, cid, calls, buffer, nextId, wire,
        Events(timers, callbacks, cids, asked, fired), issued)
    }

    constructor ()
      ensures View() == NewClient()
    {
      conn, ready, channels, cid, calls := Closed, false, map[], 1, map[];
      buffer, nextId, wire, timers, callbacks, cids := [], 0, [], {}, {}, map[];
      asked, fired, issued := {}, [], [];
    }

    // ---- closing -----------------------------------------------------------

    // _suspendSubscriptions, channel by channel
    method SuspendSubscriptions()
      modifies this
      ensures View() == Suspend(old(View()))
    {
      hide CallsAmong;
      ghost var c := View();
      var done: set<string> := {};
      NoCallsAmong(c);
      while channels.Keys - done != {}
        invariant done <= c.channels.Keys && channels.Keys == c.channels.Keys
        invariant forall name | name in c.channels :: channels[name] == if name in done then Suspended(c.channels[name]) else c.channels[name]
        invariant calls == c.calls - CallsAmong(c, done)
        invariant View() == c.(channels := channels, calls := calls)
        decreases c.channels.Keys - done
      {
        var name :| name in channels.Keys - done;
        var chan := channels[name];
        CallsWith(c, done, name);
        done := done + {name};
        if chan.call.Some? {
          calls := calls - {chan.call.value};
        }
        channels := channels[name := Suspended(chan)];
      }
      assert done == c.channels.Keys;
      assert channels == Suspend(c).channels;
      AllCalls(c);
    }

    // An event fails: its timer is cleared, and its callback taken away and called.
    method Fail(id: nat)
      modifies this
      ensures View() == old(View()).(events := FailEvent(old(View()).events, id))
    {
      timers := timers - {id};
      if id in callbacks {
        callbacks := callbacks - {id};
        fired := fired + [id];
      }
    }

    // SCClientSocket._abortAllPendingEventsDueToBadConnection
    method AbortBuffered()
      modifies this
      ensures View() == AbortBuffer(old(View()))
    {
      while buffer != []
        invariant AbortBuffer(View()) == AbortBuffer(old(View()))
        decreases |buffer|
      {
        var e := buffer[0];
        buffer := buffer[1..];
        Fail(e.id);
      }
    }

    // SCTransport._abortAllPendingEventsDueToBadConnection
    method AbortPending()
      modifies this
      ensures View() == AbortCalls(old(View()), 0)
    {
      var k := 0;
      while k < cid
        invariant 0 <= k && cid == old(cid)
        invariant AbortCalls(View(), k) == AbortCalls(old(View()), 0)
      {
        if k in calls {
          var owner := calls[k];
          calls := calls - {k};
          match owner {
            case Handshake =>
            case Channel(name) => channels := channels[name := Chan(Unsubscribed, None)];
            case User(id) => Fail(id);
          }
        }
        k := k + 1;
      }
    }

    // SCTransport._onClose
    method Close()
      modifies this
      ensures View() == OnClose(old(View()))
    {
      hide Suspend, AbortBuffer, AbortCalls;
      if conn == Closed {
        return;
      }
      conn := Closed;
      SuspendSubscriptions();
      AbortBuffered();
      AbortPending();
    }

    // ---- sending -----------------------------------------------------------

    method SendEvent(ev: Node.Event)
      modifies this
      ensures View() == Send(old(View()), ev)
    {
      if ready {
        wire := wire + [ev];
      } else {
        Close();
      }
    }

    method NewCall(owner: Owner) returns (k: nat)
      modifies this
      ensures View() == Register(old(View()), owner) && k == old(cid)
    {
      k := cid;
      calls := calls[k := owner];
      cid := cid + 1;
      issued := issued + [k];
    }

    // SCTransport.emitObject
    method EmitEvent(e: Emitted)
      modifies this
      ensures View() == EmitObject(old(View()), e)
    {
      hide Send;
      if e.id in callbacks {
        var k := NewCall(User(e.id));
        cids := cids[e.id := k];
        SendEvent(ToEvent(e.what, Some(k)));
      } else {
        SendEvent(ToEvent(e.what, None));
      }
    }

    // _flushEmitBuffer: each event leaves the buffer before it is emitted.
    method FlushBuffer()
      modifies this
      ensures View() == Flush(old(View()))
    {
      hide EmitObject;
      while buffer != []
        invariant Flush(View()) == Flush(old(View()))
        decreases |buffer|
      {
        var e := buffer[0];
        buffer := buffer[1..];
        EmitEvent(e);
      }
    }

    // ---- channels ----------------------------------------------------------

    // _trySubscribe; the call id is stored when the event has been sent.
    method TryToSubscribe(name: string)
      modifies this
      ensures View() == TrySubscribe(old(View()), name)
    {
      hide Send;
      var chan := ChanOf(View(), name);
      if conn == Open && (name !in channels || channels[name].call.None?) {
        var k := NewCall(Channel(name));
        SendEvent(Node.SubscribeEvent(Some(k), name, false));
        var state := if name in channels then channels[name].state else Unsubscribed;
        channels := channels[name := Chan(state, Some(k))];
      }
    }

    method OnSubscribe(name: string)
      modifies this
      ensures View() == Subscribe(old(View()), name)
    {
      hide TrySubscribe;
      if name !in channels || channels[name].state == Unsubscribed {
        channels := channels[name := Chan(Pending, if name in channels then channels[name].call else None)];
        TryToSubscribe(name);
      }
    }

    method OnUnsubscribe(name: string)
      modifies this
      ensures View() == Unsubscribe(old(View()), name)
    {
      hide Send;
      if name in channels && channels[name].state != Unsubscribed {
        var chan := channels[name];
        if chan.call.Some? {
          calls := calls - {chan.call.value};
        }
        channels := channels[name := Chan(Unsubscribed, None)];
        CancelIsThis(old(View()), name, View());
        if conn == Open {
          SendEvent(Node.UnsubscribeEvent(None, name));
        }
      }
    }

    static lemma CancelIsThis(c: Client, name: string, d: Client)
      requires name in c.channels
      requires d == c.(channels := c.channels[name := Chan(Unsubscribed, None)],
                       calls := if c.channels[name].call.Some? then c.calls - {c.channels[name].call.value} else c.calls)
      ensures CancelCall(SetChan(c, name, ChanOf(c, name).(state := Unsubscribed)), name) == d
    {
    }

    // processPendingSubscriptions
    method ProcessInOrder(order: seq<string>)
      modifies this
      ensures View() == ProcessPending(old(View()), order)
    {
      hide TrySubscribe;
      var i := 0;
      while i < |order|
        invariant 0 <= i <= |order|
        invariant ProcessPending(View(), order[i..]) == ProcessPending(old(View()), order)
      {
        assert order[i..][0] == order[i] && order[i..][1..] == order[i + 1..];
        TryToSubscribe(order[i]);
        i := i + 1;
      }
      assert order[i..] == [];
    }

    // ---- the connection ----------------------------------------------------

    method OnConnect()
      modifies this
      ensures View() == Connect(old(View()))
    {
      if conn == Closed {
        conn, ready, calls, wire := Connecting, false, map[], [];
      }
    }

    method OnSocketOpen(auth: Option<Signed>)
      modifies this
      ensures View() == SocketOpen(old(View()), auth)
    {
      ready := true;
      var k := NewCall(Owner.Handshake);
      SendEvent(Node.Handshake(Some(k), auth));
    }

    method OnHandshakeDone(order: seq<string>)
      modifies this
      ensures View() == OnOpen(old(View()), order)
    {
      hide ProcessPending, Flush;
      conn := Open;
      ProcessInOrder(order);
      if conn == Open {
        FlushBuffer();
      }
    }

    // An answer: the callback of its call is called, once.
    method OnResponse(rid: int, ok: bool, order: seq<string>)
      modifies this
      ensures View() == OnAnswer(old(View()), rid, ok, order)
    {
      hide OnOpen, OnClose;
      if rid < 0 || rid !in calls {
        return;
      }
      var owner := calls[rid];
      calls := calls - {rid};
      match owner
      case Handshake =>
        if ok {
          OnHandshakeDone(order);
        } else {
          Close();
        }
      case Channel(name) => channels := channels[name := Chan(if ok then Subscribed else Unsubscribed, None)];
      case User(id) =>
        timers := timers - {id};
        if id in callbacks {
          fired := fired + [id];
        }
    }

    // A new event goes to the end of the buffer, and its timer starts to run.
    method PutIntoBuffer(what: UserEvent, callback: bool)
      modifies this
      ensures View() == Buffer(old(View()), what, callback)
    {
      if callback {
        callbacks := callbacks + {nextId};
        asked := asked + {nextId};
      }
      timers := timers + {nextId};
      buffer := buffer + [Emitted(nextId, what)];
      nextId := nextId + 1;
    }

    // _emit
    method OnEmit(what: UserEvent, callback: bool)
      modifies this
      ensures View() == Emit(old(View()), what, callback)
    {
      hide Flush, Buffer;
      OnConnect();
      PutIntoBuffer(what, callback);
      if conn == Open {
        FlushBuffer();
      }
    }

    // _handleEventAckTimeout, run by the timer of the event
    method OnAckTimeout(id: nat)
      requires id in timers
      modifies this
      ensures View() == AckTimeout(old(View()), id)
    {
      hide Without;
      buffer := Without(buffer, id);
      Fail(id);
      if id in cids {
        calls := calls - {cids[id]};
      }
    }

    // disconnect: the transport says goodbye if it can.
    method OnDisconnect()
      modifies this
      ensures View() == After(old(View()), DoDisconnect)
    {
      hide Send, OnClose;
      if conn == Open {
        SendEvent(Node.Disconnect);
      }
      Close();
    }
  }
}
