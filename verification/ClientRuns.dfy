// What every turn of the client keeps: each callback is called once at most, and
// once at last; call ids are never used twice; and the channels a page wants
// survive the connection.
module ClientRuns {
  import opened Prelude
  import opened Client
  import Auth
  import Node

  // ---- calls ---------------------------------------------------------------

  // Calls are numbered below `cid`, and a channel's call, while it waits, is known
  // to the channel.
  ghost predicate CallsOk(c: Client) {
    && (forall k | k in c.calls :: k < c.cid)
    && (forall k | k in c.calls && c.calls[k].Channel? :: c.calls[k].channel in c.channels)
    && (forall name | name in c.channels && c.channels[name].call.Some? ::
          c.channels[name].call.value < c.cid
          && (c.channels[name].call.value in c.calls ==> c.calls[c.channels[name].call.value] == Channel(name)))
  }

  // Call ids were handed out in increasing order, so none twice.
  ghost predicate IssuedOk(c: Client) {
    && (forall i | 0 <= i < |c.issued| :: c.issued[i] < c.cid)
    && (forall i, j | 0 <= i < j < |c.issued| :: c.issued[i] < c.issued[j])
  }

  // ---- where a callback is -------------------------------------------------

  ghost predicate InBuffer(c: Client, id: nat) {
    exists i :: 0 <= i < |c.buffer| && c.buffer[i].id == id
  }

  ghost predicate InCalls(c: Client, id: nat) {
    exists k :: k in c.calls && c.calls[k] == User(id)
  }

  ghost predicate BufferOk(c: Client) {
    && (forall i, j | 0 <= i < j < |c.buffer| :: c.buffer[i].id < c.buffer[j].id)
    && (forall i | 0 <= i < |c.buffer| :: c.buffer[i].id < c.nextId)
    && (forall id | id in c.events.asked :: id < c.nextId)
  }

  ghost predicate FiredOk(c: Client) {
    && (forall i | 0 <= i < |c.events.fired| :: c.events.fired[i] in c.events.asked)
    && (forall i, j | 0 <= i < j < |c.events.fired| :: c.events.fired[i] != c.events.fired[j])
  }

  // The call of an event is the one it keeps the id of.
  ghost predicate UsersOk(c: Client) {
    && (forall k | k in c.calls && c.calls[k].User? ::
          c.calls[k].id in c.events.asked && c.calls[k].id in c.events.cids && c.events.cids[c.calls[k].id] == k)
    && (forall id | id in c.events.cids ::
          c.events.cids[id] < c.cid && (c.events.cids[id] in c.calls ==> c.calls[c.events.cids[id]] == User(id)))
  }

  // A running timer is that of an event whose callback was not called, and every
  // callback that was not called is still there and has its timer running.
  ghost predicate TimersOk(c: Client) {
    && (forall id | id in c.events.timers :: id < c.nextId && id !in c.events.fired)
    && (forall id | id in c.events.asked :: id in c.events.fired || (id in c.events.timers && id in c.events.callbacks))
    && c.events.callbacks <= c.events.asked
  }

  // The callback of an event is in exactly one place: in the buffer, among the
  // calls, or called.
  ghost predicate OnePlace(c: Client, id: nat) {
    if InBuffer(c, id) then !InCalls(c, id) && id !in c.events.fired
    else if InCalls(c, id) then id !in c.events.fired
    else id in c.events.fired
  }

  ghost predicate PlacesOk(c: Client) {
    && BufferOk(c) && FiredOk(c) && UsersOk(c) && TimersOk(c)
    && (forall id | id in c.events.asked :: OnePlace(c, id))
  }

  ghost predicate Base(c: Client) { CallsOk(c) && IssuedOk(c) && PlacesOk(c) && c.cid > 0 }

  // ---- closing keeps it ----------------------------------------------------

  // `d` has the callback of `id` where `c` has it.
  ghost predicate SamePlace(c: Client, d: Client, id: nat) {
    (InBuffer(d, id) <==> InBuffer(c, id)) && (InCalls(d, id) <==> InCalls(c, id))
  }

  // No callback is called; at most timers of events without one are cleared.
  lemma PlacesOfSame(c: Client, d: Client)
    requires PlacesOk(c) && BufferOk(d) && UsersOk(d) && d.nextId >= c.nextId
    requires d.events == c.events.(timers := d.events.timers, cids := d.events.cids)
    requires d.events.timers <= c.events.timers && c.events.timers * c.events.asked <= d.events.timers
    requires forall id | id in c.events.asked :: SamePlace(c, d, id)
    ensures PlacesOk(d)
  {
    hide InBuffer, InCalls, BufferOk, UsersOk;
    forall id | id in d.events.asked ensures OnePlace(d, id) { assert SamePlace(c, d, id) && OnePlace(c, id); }
  }

  // Only calls that belong to channels, or to nobody, are dropped.
  lemma DroppedCalls(c: Client, d: Client)
    requires PlacesOk(c) && d.buffer == c.buffer && d.events == c.events && d.nextId == c.nextId && d.cid == c.cid
    requires d.calls.Keys <= c.calls.Keys && forall k | k in d.calls :: d.calls[k] == c.calls[k]
    requires forall k | k in c.calls && k !in d.calls :: !c.calls[k].User?
    ensures PlacesOk(d)
  {
    forall id | id in c.events.asked ensures SamePlace(c, d, id) {
      if InCalls(c, id) {
        var k :| k in c.calls && c.calls[k] == User(id);
        assert k in d.calls && d.calls[k] == User(id);
      }
    }
    hide InBuffer, InCalls;
    PlacesOfSame(c, d);
  }

  lemma SuspendKeeps(c: Client)
    requires Base(c)
    ensures Base(Suspend(c))
  {
    var d := Suspend(c);
    forall k | k in c.calls && k !in d.calls ensures !c.calls[k].User? {
      assert k in PendingCalls(c);
    }
    hide PlacesOk, IssuedOk;
    DroppedCalls(c, d);
    assert IssuedOk(d) by { IssuedSame(c, d); }
  }

  lemma IssuedSame(c: Client, d: Client)
    requires IssuedOk(c) && d.issued == c.issued && d.cid == c.cid
    ensures IssuedOk(d)
  {
  }

  // One callback is called: it leaves its place, and its timer no longer runs.
  lemma FiredOne(c: Client, d: Client, id: nat)
    requires PlacesOk(c) && BufferOk(d) && UsersOk(d) && d.nextId == c.nextId
    requires id in c.events.asked && id !in c.events.fired
    requires d.events == c.events.(timers := c.events.timers - {id}, callbacks := d.events.callbacks, fired := c.events.fired + [id])
    requires c.events.callbacks - {id} <= d.events.callbacks <= c.events.callbacks
    requires !InBuffer(d, id) && !InCalls(d, id)
    requires forall i | i in c.events.asked && i != id :: SamePlace(c, d, i)
    ensures PlacesOk(d)
  {
    hide InBuffer, InCalls, BufferOk, UsersOk;
    forall i | i in d.events.asked ensures OnePlace(d, i) { assert OnePlace(c, i); }
  }

  lemma BufferTail(c: Client, d: Client)
    requires BufferOk(c) && c.buffer != [] && d.buffer == c.buffer[1..] && d.events.asked == c.events.asked && d.nextId == c.nextId
    ensures BufferOk(d) && !InBuffer(d, c.buffer[0].id) && InBuffer(c, c.buffer[0].id)
    ensures forall i | i != c.buffer[0].id :: InBuffer(d, i) <==> InBuffer(c, i)
  {
    forall i | i != c.buffer[0].id ensures InBuffer(d, i) <==> InBuffer(c, i) {
      if InBuffer(c, i) {
        var j :| 0 <= j < |c.buffer| && c.buffer[j].id == i;
        assert d.buffer[j - 1] == c.buffer[j];
      }
      if InBuffer(d, i) {
        var j :| 0 <= j < |d.buffer| && d.buffer[j].id == i;
        assert c.buffer[j + 1] == d.buffer[j];
      }
    }
  }

  // An event in the buffer, or among the calls, whose callback was asked for has it.
  lemma HasCallback(c: Client, id: nat)
    requires PlacesOk(c) && (InBuffer(c, id) || InCalls(c, id))
    ensures id in c.events.callbacks <==> id in c.events.asked
    ensures id in c.events.asked ==> id !in c.events.fired && id in c.events.timers
  {
    hide InBuffer, InCalls, BufferOk, UsersOk;
    if id in c.events.asked { assert OnePlace(c, id); }
  }

  lemma {:induction false} AbortBufferKeeps(c: Client)
    requires PlacesOk(c)
    ensures PlacesOk(AbortBuffer(c))
    decreases |c.buffer|
  {
    if c.buffer != [] {
      var id := c.buffer[0].id;
      var d := c.(buffer := c.buffer[1..], events := FailEvent(c.events, id));
      BufferTail(c, d);
      HasCallback(c, id);
      assert UsersOk(d);
      assert forall i :: InCalls(d, i) <==> InCalls(c, i);
      if id in c.events.asked { assert OnePlace(c, id); }
      hide InBuffer, InCalls, UsersOk, BufferOk;
      if id in c.events.asked { FiredOne(c, d, id); } else { PlacesOfSame(c, d); }
      AbortBufferKeeps(d);
    }
  }

  // The call of an event is over.
  lemma CallGone(c: Client, d: Client, k: nat, id: nat)
    requires UsersOk(c) && k in c.calls && c.calls[k] == User(id) && d.calls == c.calls - {k}
    requires d.events.asked == c.events.asked && d.events.cids == c.events.cids && d.cid == c.cid
    ensures UsersOk(d) && !InCalls(d, id) && InCalls(c, id)
    ensures forall i | i != id :: InCalls(d, i) <==> InCalls(c, i)
  {
    forall i | i != id ensures InCalls(d, i) <==> InCalls(c, i) {
      if InCalls(c, i) {
        var j :| j in c.calls && c.calls[j] == User(i);
        assert j in d.calls && d.calls[j] == User(i);
      }
    }
  }

  // A user's call is over and its callback called.
  lemma CallFired(c: Client, d: Client, k: nat, id: nat)
    requires PlacesOk(c) && k in c.calls && c.calls[k] == User(id)
    requires d.calls == c.calls - {k} && (d.events == FailEvent(c.events, id) || d.events == AnswerEvent(c.events, id))
    requires d.buffer == c.buffer && d.nextId == c.nextId && d.cid == c.cid
    ensures PlacesOk(d)
  {
    CallGone(c, d, k, id);
    HasCallback(c, id);
    assert id in c.events.asked && OnePlace(c, id);
    assert forall i :: InBuffer(d, i) <==> InBuffer(c, i);
    assert BufferOk(d);
    hide InBuffer, InCalls, BufferOk, UsersOk;
    FiredOne(c, d, id);
  }

  // Some call, among those from `k` on, belongs to the channel.
  ghost predicate CallsChannel(c: Client, name: string) {
    exists k :: k in c.calls && c.calls[k] == Channel(name)
  }

  ghost predicate CallsFrom(c: Client, k: nat) {
    forall j | j in c.calls :: k <= j < c.cid && (c.calls[j].Channel? ==> c.calls[j].channel in c.channels)
  }

  lemma AbortOne(c: Client, k: nat)
    requires PlacesOk(c) && k in c.calls && CallsFrom(c, k)
    ensures
      var d := FailCall(c.(calls := c.calls - {k}), c.calls[k]);
      && PlacesOk(d) && CallsFrom(d, k + 1) && d.channels.Keys == c.channels.Keys && d.cid == c.cid
      && forall name | name in c.channels ::
           d.channels[name] == if c.calls[k] == Channel(name) then Chan(Unsubscribed, None) else c.channels[name]
  {
    hide PlacesOk;
    var d := FailCall(c.(calls := c.calls - {k}), c.calls[k]);
    if c.calls[k].User? {
      CallFired(c, d, k, c.calls[k].id);
    } else {
      DroppedCalls(c, d);
    }
    if c.calls[k].Channel? { assert d.channels.Keys == c.channels.Keys; }
  }

  // After the abort no call is left; the channels whose calls failed are
  // unsubscribed and the others are as they were.
  lemma {:induction false} AbortCallsKeeps(c: Client, k: nat)
    requires PlacesOk(c) && CallsFrom(c, k)
    ensures
      var r := AbortCalls(c, k);
      && PlacesOk(r) && r.calls == map[] && r.channels.Keys == c.channels.Keys
      && forall name | name in c.channels ::
           r.channels[name] == if CallsChannel(c, name) then Chan(Unsubscribed, None) else c.channels[name]
    decreases c.cid - k
  {
    hide PlacesOk;
    if k >= c.cid {
      assert c.calls.Keys == {};
    } else if k in c.calls {
      var d := FailCall(c.(calls := c.calls - {k}), c.calls[k]);
      AbortOne(c, k);
      AbortCallsKeeps(d, k + 1);
      forall name | name in c.channels
        ensures AbortCalls(c, k).channels[name] == if CallsChannel(c, name) then Chan(Unsubscribed, None) else c.channels[name]
      {
        CallsChannelNext(c, d, k, name);
      }
    } else {
      AbortCallsKeeps(c, k + 1);
    }
  }

  lemma CallsChannelNext(c: Client, d: Client, k: nat, name: string)
    requires k in c.calls && d.calls == c.calls - {k}
    ensures CallsChannel(c, name) <==> c.calls[k] == Channel(name) || CallsChannel(d, name)
  {
    if CallsChannel(c, name) && c.calls[k] != Channel(name) {
      var j :| j in c.calls && c.calls[j] == Channel(name);
      assert j in d.calls;
    }
  }

  // ---- wanted channels -----------------------------------------------------

  // The channels that a page wants: pending or subscribed.
  function Wanted(c: Client): set<string> {
    set name | name in c.channels && c.channels[name].state != Unsubscribed
  }

  // Every waiting call of a channel is known to the channel.
  ghost predicate AllKnown(c: Client) {
    forall k | k in c.calls && c.calls[k].Channel? ::
      c.calls[k].channel in c.channels && c.channels[c.calls[k].channel].call == Some(k)
  }

  lemma SuspendedCalls(c: Client, name: string)
    requires CallsOk(c)
    ensures CallsFrom(Suspend(c), 0)
    ensures CallsChannel(Suspend(c), name) <==> exists k :: k in c.calls && c.calls[k] == Channel(name) && k !in PendingCalls(c)
  {
    var d := Suspend(c);
    if exists k :: k in c.calls && c.calls[k] == Channel(name) && k !in PendingCalls(c) {
      var k :| k in c.calls && c.calls[k] == Channel(name) && k !in PendingCalls(c);
      assert k in d.calls;
    }
  }

  // What is closed before the calls are aborted.
  function Hushed(c: Client): Client { AbortBuffer(Suspend(c.(conn := Closed))) }

  lemma HushedKeeps(c: Client)
    requires Base(c)
    ensures Base(Hushed(c)) && CallsFrom(Hushed(c), 0) && Hushed(c).buffer == []
    ensures Hushed(c).channels.Keys == c.channels.Keys
    ensures forall name | name in c.channels :: Hushed(c).channels[name] == Suspended(c.channels[name])
    ensures forall name :: CallsChannel(Hushed(c), name) <==> CallsChannel(Suspend(c), name)
  {
    var s := Suspend(c.(conn := Closed));
    assert Base(s) && CallsFrom(s, 0) by { SuspendedKeeps(c); }
    assert s.calls == Suspend(c).calls;
    hide PlacesOk, PendingCalls, IssuedOk;
    AbortBufferKeeps(s);
    IssuedSame(s, AbortBuffer(s));
  }

  lemma SuspendedKeeps(c: Client)
    requires Base(c)
    ensures var s := Suspend(c.(conn := Closed)); Base(s) && CallsFrom(s, 0)
  {
    var d := c.(conn := Closed);
    ConnOnly(c, d);
    hide Base, Suspend;
    SuspendKeeps(d);
    BaseCalls(d);
    SuspendedCalls(d, "");
  }

  lemma BaseCalls(c: Client)
    requires Base(c)
    ensures CallsOk(c)
  {
  }

  // A closed connection: no call waits, every callback that was in the buffer or
  // among the calls has been called, and every channel is either as the page wants
  // it or, if its subscription was just being sent, given up.
  lemma CloseKeeps(c: Client)
    requires Base(c) && c.conn != Closed
    ensures
      var r := OnClose(c);
      && Base(r) && r.calls == map[] && r.buffer == []
      && (forall id | id in c.events.asked :: id in r.events.fired) && r.events.asked == c.events.asked
      && r.channels.Keys == c.channels.Keys
      && forall name | name in c.channels ::
           r.channels[name] == if CallsChannel(Suspend(c), name) then Chan(Unsubscribed, None) else Suspended(c.channels[name])
  {
    hide PlacesOk, Suspend, AbortBuffer, CallsChannel, CallsFrom, IssuedOk;
    HushedKeeps(c);
    var b := Hushed(c);
    assert b.events.asked == c.events.asked && b.issued == c.issued && b.cid == c.cid by { HushedSame(c); }
    AbortCallsKeeps(b, 0);
    var r := AbortCalls(b, 0);
    assert OnClose(c) == r;
    IssuedSame(b, r);
    NothingWaits(r);
  }

  lemma HushedSame(c: Client)
    ensures var b := Hushed(c); b.events.asked == c.events.asked && b.issued == c.issued && b.cid == c.cid
  {
  }

  lemma ConnOnly(c: Client, d: Client)
    requires Base(c) && d == c.(conn := d.conn, ready := d.ready, wire := d.wire)
    ensures Base(d)
  {
    PlacesSame(c, d);
  }

  lemma PlaceSame(c: Client, d: Client, id: nat)
    requires d.buffer == c.buffer && d.calls == c.calls
    ensures SamePlace(c, d, id)
  {
  }

  lemma NothingWaits(c: Client)
    requires PlacesOk(c) && c.calls == map[] && c.buffer == []
    ensures forall id | id in c.events.asked :: id in c.events.fired
  {
    forall id | id in c.events.asked ensures id in c.events.fired { assert OnePlace(c, id); }
  }

  // The 'close' event cancels every pending subscription before the abort of the
  // calls could fail it: what the page wants is the same after a close.
  lemma CloseKeepsWanted(c: Client)
    requires Base(c) && AllKnown(c)
    ensures Wanted(OnClose(c)) == Wanted(c)
    ensures c.conn != Closed ==> forall name | name in OnClose(c).channels ::
      OnClose(c).channels[name].call == None && OnClose(c).channels[name].state != Subscribed
  {
    if c.conn != Closed {
      forall name ensures !CallsChannel(Suspend(c), name) { }
      hide Base, AllKnown, Suspend;
      CloseKeeps(c);
      var r := OnClose(c);
      forall name | name in c.channels ensures (name in Wanted(r) <==> name in Wanted(c)) {
        assert r.channels[name] == Suspended(c.channels[name]);
      }
    }
  }

  // ---- the whole invariant -------------------------------------------------

  ghost predicate ChanOk(c: Client, chan: Chan) {
    && (chan.call.Some? && chan.call.value in c.calls ==> chan.state == Pending)
    && (chan.state == Subscribed ==> c.conn == Open && chan.call.None?)
  }

  // On top of that: a channel waits for its call only while it is pending, and it is
  // subscribed only on an open connection.
  ghost predicate Inv(c: Client) {
    && Base(c) && AllKnown(c)
    && (c.conn == Closed ==> c.calls == map[])
    && (c.conn != Open ==> forall k | k in c.calls :: c.calls[k] == Handshake)
    && (forall name | name in c.channels :: ChanOk(c, c.channels[name]))
  }

  // On an open connection a pending channel has a call.
  ghost predicate Tried(c: Client) {
    c.conn == Open ==> forall name | name in c.channels && c.channels[name].state == Pending :: c.channels[name].call.Some?
  }

  lemma CloseInv(c: Client)
    requires Inv(c)
    ensures Inv(OnClose(c)) && Tried(OnClose(c))
    ensures c.conn != Closed ==> OnClose(c).buffer == []
  {
    if c.conn != Closed {
      hide Base, IssuedOk, PlacesOk;
      CloseKeeps(c);
      CloseKeepsWanted(c);
    }
  }

  lemma SendInv(c: Client, ev: Node.Event)
    requires Inv(c)
    ensures Inv(Send(c, ev)) && (Tried(c) ==> Tried(Send(c, ev)))
    ensures !c.ready && c.conn != Closed ==> Send(c, ev).buffer == []
    ensures c.ready ==> Send(c, ev) == c.(wire := c.wire + [ev])
  {
    hide Base, AllKnown;
    if c.ready {
      ConnOnly(c, Send(c, ev));
      assert AllKnown(Send(c, ev)) by { KnownSame(c, Send(c, ev)); }
    } else {
      CloseInv(c);
    }
  }

  lemma KnownSame(c: Client, d: Client)
    requires AllKnown(c) && d.calls == c.calls && d.channels == c.channels
    ensures AllKnown(d)
  {
  }

  // The head of the buffer becomes a call.
  lemma BecomesCall(c: Client, d: Client)
    requires Base(c) && c.buffer != [] && c.buffer[0].id in c.events.callbacks
    requires d == RegisterUser(c.(buffer := c.buffer[1..]), c.buffer[0].id)
    ensures Base(d)
  {
    var id := c.buffer[0].id;
    BufferTail(c, d);
    HasCallback(c, id);
    assert OnePlace(c, id);
    NewCall(c, d, id);
    hide InBuffer, InCalls, BufferOk, UsersOk;
    forall i | i in d.events.asked ensures OnePlace(d, i) { assert OnePlace(c, i); }
    assert CallsOk(d);
    assert IssuedOk(d);
  }

  lemma NewCall(c: Client, d: Client, id: nat)
    requires UsersOk(c) && CallsOk(c) && id in c.events.asked && !InCalls(c, id)
    requires d.calls == c.calls[c.cid := User(id)] && d.cid == c.cid + 1
    requires d.events.asked == c.events.asked && d.events.cids == c.events.cids[id := c.cid]
    ensures UsersOk(d) && InCalls(d, id)
    ensures forall i | i != id :: InCalls(d, i) <==> InCalls(c, i)
  {
    assert d.calls[c.cid] == User(id);
    forall i | i != id ensures InCalls(d, i) <==> InCalls(c, i) {
      if InCalls(c, i) {
        var j :| j in c.calls && c.calls[j] == User(i);
        assert d.calls[j] == User(i);
      }
    }
  }

  // The head of the buffer, without a callback, is dropped from it.
  lemma LeavesBuffer(c: Client, d: Client)
    requires Base(c) && c.buffer != [] && c.buffer[0].id !in c.events.callbacks && d == c.(buffer := c.buffer[1..])
    ensures Base(d)
  {
    BufferTail(c, d);
    HasCallback(c, c.buffer[0].id);
    assert forall i :: InCalls(d, i) <==> InCalls(c, i);
    assert UsersOk(d);
    hide InBuffer, InCalls, BufferOk, UsersOk;
    PlacesOfSame(c, d);
  }

  lemma NoChannelTouched(c: Client, d: Client)
    requires Inv(c) && Base(d) && d.channels == c.channels && c.conn == d.conn == Open
    requires forall k | k in d.calls && d.calls[k].Channel? :: k in c.calls && c.calls[k] == d.calls[k]
    ensures Inv(d) && (Tried(c) ==> Tried(d))
  {
    hide Base;
    forall name | name in d.channels ensures ChanOk(d, d.channels[name]) {
      assert ChanOk(c, c.channels[name]);
      if d.channels[name].call.Some? && d.channels[name].call.value in d.calls {
        assert d.calls[d.channels[name].call.value] == Channel(name) by { BaseCall(d, name); }
      }
    }
  }

  lemma BaseCall(c: Client, name: string)
    requires Base(c) && name in c.channels && c.channels[name].call.Some? && c.channels[name].call.value in c.calls
    ensures c.calls[c.channels[name].call.value] == Channel(name)
  {
  }

  lemma EmitObjectInv(c: Client)
    requires Inv(c) && c.buffer != [] && c.conn == Open
    ensures var d := EmitObject(c.(buffer := c.buffer[1..]), c.buffer[0]);
      Inv(d) && (Tried(c) ==> Tried(d)) && (d.buffer == c.buffer[1..] || d.buffer == [])
  {
    hide Base, Inv, Tried;
    var b := c.(buffer := c.buffer[1..]);
    var e := c.buffer[0];
    var d := if e.id in b.events.callbacks then RegisterUser(b, e.id) else b;
    assert Base(c) by { InvBase(c); }
    if e.id in b.events.callbacks { BecomesCall(c, d); } else { LeavesBuffer(c, d); }
    NoChannelTouched(c, d);
    SendInv(d, if e.id in b.events.callbacks then ToEvent(e.what, Some(b.cid)) else ToEvent(e.what, None));
  }

  lemma InvBase(c: Client)
    requires Inv(c)
    ensures Base(c) && AllKnown(c)
  {
  }

  // All buffered events are emitted, unless the connection closes: then they are
  // aborted. The buffer is empty afterwards.
  lemma {:induction false} FlushInv(c: Client)
    requires Inv(c) && Tried(c) && (c.conn == Open || c.buffer == [])
    ensures Inv(Flush(c)) && Tried(Flush(c)) && Flush(c).buffer == []
    decreases |c.buffer|
  {
    hide Inv, Tried, EmitObject;
    if c.buffer != [] {
      var d := EmitObject(c.(buffer := c.buffer[1..]), c.buffer[0]);
      EmitObjectInv(c);
      if d.conn != Open { EmitObjectOpen(c); }
      FlushInv(d);
    }
  }

  lemma EmitObjectOpen(c: Client)
    requires Inv(c) && c.buffer != [] && c.conn == Open
    ensures var d := EmitObject(c.(buffer := c.buffer[1..]), c.buffer[0]);
      d.conn == Open || d.buffer == []
  {
    hide Inv, Base;
    assert Inv(c);
  }

  // ---- subscribing ---------------------------------------------------------

  // A channel's subscription can be tried: it is pending without a call.
  ghost predicate Untried(c: Client, name: string) {
    c.conn == Open && name in c.channels && c.channels[name] == Chan(Pending, None)
  }

  // A call that belongs to no event of the page.
  lemma OtherCall(c: Client, owner: Owner)
    requires Base(c) && !owner.User?
    ensures PlacesOk(Register(c, owner))
  {
    var d := Register(c, owner);
    assert forall k | k in c.calls :: d.calls[k] == c.calls[k];
    forall id | id in c.events.asked ensures SamePlace(c, d, id) {
      if InCalls(c, id) {
        var k :| k in c.calls && c.calls[k] == User(id);
        assert d.calls[k] == User(id);
      }
    }
    assert UsersOk(d);
    hide InBuffer, InCalls, UsersOk;
    PlacesOfSame(c, d);
  }

  lemma RegisterChannel(c: Client, name: string)
    requires Inv(c) && Untried(c, name)
    ensures Base(Register(c, Channel(name)))
  {
    OtherCall(c, Channel(name));
    hide PlacesOk;
  }

  // The subscription is sent: the channel has its one call.
  lemma TrySubscribeReady(c: Client, name: string)
    requires Inv(c) && Untried(c, name) && c.ready
    ensures
      var d := TrySubscribe(c, name);
      && Inv(d) && d.conn == Open && d.ready && d.buffer == c.buffer
      && d.channels == c.channels[name := Chan(Pending, Some(c.cid))]
      && d.calls == c.calls[c.cid := Channel(name)] && d.cid == c.cid + 1
      && d.wire == c.wire + [Node.SubscribeEvent(Some(c.cid), name, false)]
  {
    var r := Register(c, Channel(name));
    RegisterChannel(c, name);
    SentCall(c, r, TrySubscribe(c, name), name);
  }

  lemma SentCall(c: Client, r: Client, d: Client, name: string)
    requires Inv(c) && Untried(c, name) && r == Register(c, Channel(name)) && Base(r)
    requires d == r.(wire := d.wire, channels := c.channels[name := Chan(Pending, Some(c.cid))])
    ensures Inv(d)
  {
    hide PlacesOk, IssuedOk;
    PlacesSame(r, d);
    IssuedSame(r, d);
    forall other | other in d.channels ensures ChanOk(d, d.channels[other]) {
      if other != name { assert ChanOk(c, c.channels[other]); }
    }
  }

  lemma PlacesSame(c: Client, d: Client)
    requires PlacesOk(c) && d.buffer == c.buffer && d.calls == c.calls && d.events == c.events && d.nextId == c.nextId && d.cid == c.cid
    ensures PlacesOk(d)
  {
    hide InBuffer, InCalls;
    forall id | id in c.events.asked ensures SamePlace(c, d, id) { PlaceSame(c, d, id); }
    PlacesOfSame(c, d);
  }

  // The socket turns out to be closed: the connection is given up while the
  // subscription is being sent. Its own callback fails it, and the call id, stored
  // afterwards, stays with the channel though no call has it.
  lemma TrySubscribeDying(c: Client, name: string)
    requires Inv(c) && Untried(c, name) && !c.ready
    ensures
      var d := TrySubscribe(c, name);
      && Inv(d) && Tried(d) && d.conn == Closed && d.buffer == [] && d.channels.Keys == c.channels.Keys
      && d.channels[name] == Chan(Unsubscribed, Some(c.cid))
      && forall other | other in c.channels && other != name :: d.channels[other] == Suspended(c.channels[other])
  {
    var r := Register(c, Channel(name));
    RegisterChannel(c, name);
    DyingCalls(c, r, name);
    hide Base, PlacesOk, IssuedOk, CallsOk, PendingCalls, CallsChannel, Suspend;
    CloseKeeps(r);
    var s := OnClose(r);
    var d := TrySubscribe(c, name);
    assert s.channels[name] == Chan(Unsubscribed, None);
    assert d == s.(channels := s.channels[name := Chan(Unsubscribed, Some(c.cid))]);
    StoredLate(s, name, c.cid);
  }

  lemma DyingCalls(c: Client, r: Client, name: string)
    requires Inv(c) && Untried(c, name) && r == Register(c, Channel(name))
    ensures forall other :: CallsChannel(Suspend(r), other) <==> other == name
  {
    var s := Suspend(r);
    assert r.calls[c.cid] == Channel(name);
    assert c.cid !in PendingCalls(r);
    assert s.calls[c.cid] == Channel(name);
    forall other | other != name ensures !CallsChannel(s, other) { }
  }

  lemma StoredLate(s: Client, name: string, k: nat)
    requires Base(s) && s.calls == map[] && s.conn == Closed && name in s.channels && k < s.cid
    requires forall other | other in s.channels :: s.channels[other].call == None && s.channels[other].state != Subscribed
    requires s.channels[name].state == Unsubscribed
    ensures var d := s.(channels := s.channels[name := Chan(Unsubscribed, Some(k))]); Inv(d) && Tried(d)
  {
    var d := s.(channels := s.channels[name := Chan(Unsubscribed, Some(k))]);
    hide PlacesOk, IssuedOk;
    PlacesSame(s, d);
    IssuedSame(s, d);
  }

  lemma SetChanInv(c: Client, name: string, chan: Chan)
    requires Inv(c) && ChanOk(c, chan)
    requires name in c.channels ==> chan.call == c.channels[name].call
    requires name !in c.channels ==> chan.call == None
    ensures Inv(SetChan(c, name, chan))
  {
    var d := SetChan(c, name, chan);
    hide PlacesOk, IssuedOk;
    PlacesSame(c, d);
    IssuedSame(c, d);
  }

  lemma SubscribeInv(c: Client, name: string)
    requires Inv(c) && Tried(c)
    ensures Inv(Subscribe(c, name)) && Tried(Subscribe(c, name))
    ensures c.conn == Open && !c.ready ==> Subscribe(c, name).buffer == [] || Subscribe(c, name).buffer == c.buffer
    ensures c.ready || c.conn != Open ==> Subscribe(c, name).buffer == c.buffer
  {
    if ChanOf(c, name).state == Unsubscribed {
      var d := SetChan(c, name, ChanOf(c, name).(state := Pending));
      assert ChanOk(d, d.channels[name]);
      SetChanInv(c, name, ChanOf(c, name).(state := Pending));
      hide Inv;
      if Untried(d, name) {
        if c.ready { TrySubscribeReady(d, name); } else { TrySubscribeDying(d, name); }
      }
    }
  }

  ghost predicate PendingOrder(c: Client, order: seq<string>) {
    c.conn == Open ==>
      && (forall i | 0 <= i < |order| :: order[i] in c.channels && c.channels[order[i]].state == Pending)
      && (forall name | name in c.channels && c.channels[name] == Chan(Pending, None) :: name in order)
  }

  // After all pending channels are tried none is without a call, or the connection
  // is closed.
  lemma {:induction false} ProcessPendingInv(c: Client, order: seq<string>)
    requires Inv(c) && PendingOrder(c, order) && (c.conn == Open || c.buffer == [])
    ensures Inv(ProcessPending(c, order)) && Tried(ProcessPending(c, order))
    ensures ProcessPending(c, order).conn == Open || ProcessPending(c, order).buffer == []
    decreases |order|
  {
    hide Inv;
    if order != [] {
      var name := order[0];
      var d := TrySubscribe(c, name);
      if Untried(c, name) {
        if c.ready { TrySubscribeReady(c, name); } else { TrySubscribeDying(c, name); }
      } else {
        assert d == c;
      }
      assert forall i | 0 <= i < |order| - 1 :: order[1..][i] == order[i + 1];
      ProcessPendingInv(d, order[1..]);
    }
  }

  lemma ProcessTried(c: Client, order: seq<string>)
    requires Inv(c) && c.conn == Open && ListsPending(c, order)
    ensures PendingOrder(c, order)
  {
    forall i | 0 <= i < |order| ensures order[i] in c.channels && c.channels[order[i]].state == Pending {
      assert order[i] in order && IsPending(c, order[i]);
    }
    forall name | name in c.channels && c.channels[name] == Chan(Pending, None) ensures name in order {
      assert IsPending(c, name);
    }
  }

  // A call of a pending channel is cancelled.
  lemma UnsubscribeInv(c: Client, name: string)
    requires Inv(c) && Tried(c)
    ensures Inv(Unsubscribe(c, name)) && Tried(Unsubscribe(c, name))
    ensures Unsubscribe(c, name).conn == Open ==> Unsubscribe(c, name).buffer == c.buffer
    ensures Unsubscribe(c, name).conn != Open ==> c.conn == Unsubscribe(c, name).conn || Unsubscribe(c, name).buffer == []
  {
    if ChanOf(c, name).state != Unsubscribed {
      var d := CancelCall(SetChan(c, name, ChanOf(c, name).(state := Unsubscribed)), name);
      CancelIs(c, name);
      CancelledInv(c, name);
      hide Inv, Tried, CancelCall;
      if d.conn == Open { SendInv(d, Node.UnsubscribeEvent(None, name)); }
    }
  }

  // The client with a channel unsubscribed and its call cancelled.
  function Cancelled(c: Client, name: string): Client
    requires name in c.channels
  {
    c.(channels := c.channels[name := Chan(Unsubscribed, None)],
       calls := if c.channels[name].call.Some? then c.calls - {c.channels[name].call.value} else c.calls)
  }

  lemma CancelIs(c: Client, name: string)
    requires name in c.channels
    ensures CancelCall(SetChan(c, name, ChanOf(c, name).(state := Unsubscribed)), name) == Cancelled(c, name)
  {
  }

  lemma CancelledBase(c: Client, name: string)
    requires Base(c) && name in c.channels
    ensures Base(Cancelled(c, name))
  {
    var d := Cancelled(c, name);
    DroppedCalls(c, d);
    hide PlacesOk, IssuedOk;
    IssuedSame(c, d);
  }

  lemma CancelledInv(c: Client, name: string)
    requires Inv(c) && Tried(c) && name in c.channels
    ensures Inv(Cancelled(c, name)) && Tried(Cancelled(c, name))
  {
    CancelledBase(c, name);
    hide Base;
  }

  // ---- the connection ------------------------------------------------------

  lemma ConnectInv(c: Client)
    requires Inv(c) && Tried(c)
    ensures Inv(Connect(c)) && Tried(Connect(c))
  {
    if c.conn == Closed { ConnOnly(c, Connect(c)); }
  }

  lemma SocketOpenInv(c: Client, auth: Option<Auth.Signed>)
    requires Inv(c) && Tried(c) && Can(c, Opened(auth))
    ensures Inv(SocketOpen(c, auth)) && Tried(SocketOpen(c, auth))
  {
    var d := SocketOpen(c, auth);
    assert d == Register(c, Handshake).(ready := true, wire := [Node.Handshake(Some(c.cid), auth)]);
    HandshakeCall(c, d);
  }

  lemma HandshakeCall(c: Client, d: Client)
    requires Inv(c) && Tried(c) && c.conn == Connecting && c.calls == map[]
    requires d == Register(c, Handshake).(ready := d.ready, wire := d.wire)
    ensures Inv(d) && Tried(d)
  {
    OtherCall(c, Handshake);
    PlacesSame(Register(c, Handshake), d);
    hide PlacesOk;
  }

  // The call of the handshake is over.
  lemma HandshakeOver(c: Client, k: nat)
    requires Inv(c) && k in c.calls && c.calls[k] == Handshake && (c.conn != Open ==> c.conn == Connecting)
    ensures Inv(c.(calls := c.calls - {k}))
  {
    var d := c.(calls := c.calls - {k});
    DroppedCalls(c, d);
    hide PlacesOk, IssuedOk;
    IssuedSame(c, d);
  }

  lemma OpenInv(c: Client, order: seq<string>)
    requires Inv(c) && c.conn != Closed && ListsPending(c, order)
    ensures Inv(OnOpen(c, order)) && Tried(OnOpen(c, order)) && OnOpen(c, order).buffer == []
  {
    var d := c.(conn := Open);
    ConnOnly(c, d);
    assert Inv(d);
    assert ListsPending(d, order) by { assert forall name :: IsPending(d, name) == IsPending(c, name); }
    hide Inv, Tried, ListsPending;
    ProcessTried(d, order);
    ProcessPendingInv(d, order);
    if ProcessPending(d, order).conn == Open { FlushInv(ProcessPending(d, order)); }
  }

  lemma ChannelAnswered(c: Client, k: nat, name: string, ok: bool)
    requires Inv(c) && Tried(c) && k in c.calls && c.calls[k] == Channel(name) && c.conn == Open
    ensures var d := SetChan(c.(calls := c.calls - {k}), name, Chan(if ok then Subscribed else Unsubscribed, None));
      Inv(d) && Tried(d)
  {
    var d := SetChan(c.(calls := c.calls - {k}), name, Chan(if ok then Subscribed else Unsubscribed, None));
    DroppedCalls(c, d);
    hide PlacesOk, IssuedOk;
    IssuedSame(c, d);
  }

  lemma UserAnswered(c: Client, d: Client, k: nat, id: nat)
    requires Inv(c) && Tried(c) && k in c.calls && c.calls[k] == User(id)
    requires d == c.(calls := c.calls - {k}, events := AnswerEvent(c.events, id))
    ensures Inv(d) && Tried(d)
  {
    CallFired(c, d, k, id);
    hide PlacesOk, IssuedOk;
    IssuedSame(c, d);
  }

  // ---- events of the page --------------------------------------------------

  lemma BufferInv(c: Client, what: UserEvent, callback: bool)
    requires Inv(c) && Tried(c)
    ensures Inv(Buffer(c, what, callback)) && Tried(Buffer(c, what, callback))
  {
    var d := Buffer(c, what, callback);
    var e := Emitted(c.nextId, what);
    assert BufferOk(d) && UsersOk(d);
    forall id ensures InBuffer(d, id) <==> InBuffer(c, id) || id == e.id {
      if InBuffer(c, id) {
        var i :| 0 <= i < |c.buffer| && c.buffer[i].id == id;
        assert d.buffer[i] == c.buffer[i];
      }
      assert d.buffer[|c.buffer|] == e;
    }
    assert e.id !in c.events.asked && !InCalls(c, e.id);
    assert forall id :: InCalls(d, id) <==> InCalls(c, id);
    hide InBuffer, InCalls, BufferOk, UsersOk;
    forall id | id in d.events.asked ensures OnePlace(d, id) {
      if id != e.id { assert OnePlace(c, id); }
    }
    assert FiredOk(d) && TimersOk(d);
    hide PlacesOk;
  }

  lemma EmitInv(c: Client, what: UserEvent, callback: bool)
    requires Inv(c) && Tried(c)
    ensures Inv(Emit(c, what, callback)) && Tried(Emit(c, what, callback))
  {
    hide Inv, Tried, Buffer, Connect;
    ConnectInv(c);
    var d := Buffer(Connect(c), what, callback);
    BufferInv(Connect(c), what, callback);
    if d.conn == Open { FlushInv(d); }
  }

  lemma {:induction false} WithoutOk(buffer: seq<Emitted>, id: nat)
    requires forall i, j | 0 <= i < j < |buffer| :: buffer[i].id < buffer[j].id
    ensures forall e :: e in Without(buffer, id) <==> e in buffer && e.id != id
    ensures forall i, j | 0 <= i < j < |Without(buffer, id)| :: Without(buffer, id)[i].id < Without(buffer, id)[j].id
  {
    if buffer != [] {
      var rest := buffer[1..];
      assert forall e :: e in buffer <==> e == buffer[0] || e in rest;
      assert forall e | e in rest :: buffer[0].id < e.id;
      WithoutOk(rest, id);
      if buffer[0].id != id {
        var w := Without(rest, id);
        assert Without(buffer, id) == [buffer[0]] + w;
        forall j | 0 <= j < |w| ensures buffer[0].id < w[j].id { assert w[j] in w; }
      }
    }
  }

  lemma InBufferIn(c: Client, id: nat)
    ensures InBuffer(c, id) <==> exists e :: e in c.buffer && e.id == id
  {
    if exists e :: e in c.buffer && e.id == id {
      var e :| e in c.buffer && e.id == id;
      var i :| 0 <= i < |c.buffer| && c.buffer[i] == e;
      assert c.buffer[i].id == id;
    }
  }

  lemma BufferWithout(c: Client, d: Client, id: nat)
    requires BufferOk(c) && d.buffer == Without(c.buffer, id) && d.events.asked == c.events.asked && d.nextId == c.nextId
    ensures BufferOk(d) && !InBuffer(d, id)
    ensures forall i | i != id :: InBuffer(d, i) <==> InBuffer(c, i)
  {
    WithoutOk(c.buffer, id);
    forall i | 0 <= i < |d.buffer| ensures d.buffer[i].id < d.nextId {
      assert d.buffer[i] in d.buffer;
    }
    forall i ensures InBuffer(d, i) <==> i != id && InBuffer(c, i) {
      InBufferIn(d, i);
      InBufferIn(c, i);
    }
  }

  // The call of an event that is given up, if it has one.
  lemma TimedOutCalls(c: Client, d: Client, id: nat)
    requires UsersOk(c) && d.events.asked == c.events.asked && d.events.cids == c.events.cids && d.cid == c.cid
    requires d.calls == if id in c.events.cids then c.calls - {c.events.cids[id]} else c.calls
    ensures UsersOk(d) && !InCalls(d, id)
    ensures forall i | i != id :: InCalls(d, i) <==> InCalls(c, i)
  {
    if id in c.events.cids && c.events.cids[id] in c.calls {
      CallGone(c, d, c.events.cids[id], id);
    } else {
      assert d.calls == c.calls;
    }
  }

  // A timer runs out: the callback, if there is one, was not called before, and is
  // now.
  lemma TimeoutKeeps(c: Client, id: nat)
    requires Base(c) && id in c.events.timers
    ensures Base(AckTimeout(c, id)) && (id in c.events.asked ==> id in AckTimeout(c, id).events.fired)
  {
    var d := AckTimeout(c, id);
    BufferWithout(c, d, id);
    TimedOutCalls(c, d, id);
    hide InBuffer, InCalls, BufferOk, UsersOk, Without;
    assert id !in c.events.fired;
    if id in c.events.asked {
      FiredOne(c, d, id);
    } else {
      PlacesOfSame(c, d);
    }
    hide PlacesOk, IssuedOk;
    IssuedSame(c, d);
  }

  lemma TimeoutInv(c: Client, id: nat)
    requires Inv(c) && Tried(c) && id in c.events.timers
    ensures Inv(AckTimeout(c, id)) && Tried(AckTimeout(c, id))
  {
    TimeoutKeeps(c, id);
    hide Base, Without;
    var d := AckTimeout(c, id);
    assert forall k | k in d.calls :: k in c.calls && d.calls[k] == c.calls[k];
    assert forall k | k in c.calls && c.calls[k].Channel? :: k in d.calls;
  }

  // ---- every step ----------------------------------------------------------

  lemma AnswerInv(c: Client, rid: int, ok: bool, order: seq<string>)
    requires Inv(c) && Tried(c) && c.conn != Closed && ListsPending(c, order)
    ensures Inv(OnAnswer(c, rid, ok, order)) && Tried(OnAnswer(c, rid, ok, order))
  {
    if rid >= 0 && rid in c.calls {
      var d := c.(calls := c.calls - {rid});
      match c.calls[rid]
      case Handshake =>
        HandshakeOver(c, rid);
        assert ListsPending(d, order) by { assert forall name :: IsPending(d, name) == IsPending(c, name); }
        hide Inv, Tried, ListsPending;
        if ok { OpenInv(d, order); } else { CloseInv(d); }
      case Channel(name) => ChannelAnswered(c, rid, name, ok);
      case User(id) => UserAnswered(c, d.(events := AnswerEvent(d.events, id)), rid, id);
    }
  }

  lemma StepInv(c: Client, step: Step)
    requires Inv(c) && Tried(c) && Can(c, step)
    ensures Inv(After(c, step)) && Tried(After(c, step))
  {
    hide Inv, Tried, ListsPending;
    match step
    case DoSubscribe(name) => SubscribeInv(c, name);
    case DoUnsubscribe(name) => UnsubscribeInv(c, name);
    case DoEmit(what, callback) => EmitInv(c, what, callback);
    case DoConnect => ConnectInv(c);
    case DoDisconnect =>
      SendInv(c, Node.Disconnect);
      CloseInv(Send(c, Node.Disconnect));
      CloseInv(c);
    case Opened(auth) => SocketOpenInv(c, auth);
    case Answered(rid, ok, order) => AnswerInv(c, rid, ok, order);
    case TokenSet(order) =>
      Listed(c, order);
      NothingUntried(c, order);
      SendInv(c, Node.Unknown(None, ""));
    case TimedOut(id) => TimeoutInv(c, id);
    case Closing => ReadyOnly(c);
    case ClosedNow => CloseInv(c);
  }

  lemma Listed(c: Client, order: seq<string>)
    requires ListsPending(c, order)
    ensures forall i | 0 <= i < |order| :: IsPending(c, order[i])
  {
    forall i | 0 <= i < |order| ensures IsPending(c, order[i]) { assert order[i] in order; }
  }

  lemma ReadyOnly(c: Client)
    requires Inv(c) && Tried(c)
    ensures Inv(c.(ready := false)) && Tried(c.(ready := false))
  {
    ConnOnly(c, c.(ready := false));
    hide Base;
  }

  // On an open connection every pending channel has been tried already.
  lemma {:induction false} NothingUntried(c: Client, order: seq<string>)
    requires Tried(c) && forall i | 0 <= i < |order| :: IsPending(c, order[i])
    ensures ProcessPending(c, order) == c
    decreases |order|
  {
    if order != [] {
      assert IsPending(c, order[0]);
      assert forall i | 0 <= i < |order| - 1 :: order[1..][i] == order[i + 1];
      NothingUntried(c, order[1..]);
    }
  }

  ghost predicate Possible(c: Client, steps: seq<Step>)
    decreases |steps|
  {
    steps == [] || (Can(c, steps[0]) && Possible(After(c, steps[0]), steps[1..]))
  }

  ghost function Run(c: Client, steps: seq<Step>): Client
    decreases |steps|
  {
    if steps == [] then c else Run(After(c, steps[0]), steps[1..])
  }

  lemma {:induction false} RunInv(c: Client, steps: seq<Step>)
    requires Inv(c) && Tried(c) && Possible(c, steps)
    ensures Inv(Run(c, steps)) && Tried(Run(c, steps))
    decreases |steps|
  {
    hide Inv, Tried, After, Can;
    if steps != [] {
      StepInv(c, steps[0]);
      RunInv(After(c, steps[0]), steps[1..]);
    }
  }

  // ---- main results --------------------------------------------------------

  // Over the life of a client, through acknowledgements, timeouts, closes and
  // reconnects: a callback is called at most once; until then it waits in one place
  // only, the buffer or the calls, with its timer running; and no call id is used
  // twice.
  lemma CallbacksOnce(steps: seq<Step>)
    requires Possible(NewClient(), steps)
    ensures
      var c := Run(NewClient(), steps); var e := c.events;
      && (forall i, j | 0 <= i < j < |e.fired| :: e.fired[i] != e.fired[j])
      && (forall i | 0 <= i < |e.fired| :: e.fired[i] in e.asked)
      && (forall id | id in e.asked :: OnePlace(c, id) && (id in e.fired <==> id !in e.timers))
      && (forall j, k | j in c.calls && k in c.calls && c.calls[j].User? && c.calls[j] == c.calls[k] :: j == k)
      && (forall i, j | 0 <= i < j < |c.issued| :: c.issued[i] != c.issued[j])
  {
    RunInv(NewClient(), steps);
  }

  // A callback that was not called has its timer running, and is called when that
  // runs out, and by the next close.
  lemma CalledAtLast(c: Client, id: nat)
    requires Inv(c) && Tried(c) && id in c.events.asked && id !in c.events.fired
    ensures Can(c, TimedOut(id)) && id in After(c, TimedOut(id)).events.fired
    ensures c.conn != Closed ==> id in After(c, ClosedNow).events.fired
  {
    TimeoutKeeps(c, id);
    if c.conn != Closed { CloseKeeps(c); }
  }
}
