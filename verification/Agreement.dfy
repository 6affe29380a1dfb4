// Client and server joined by two FIFO pipes: what the client takes for subscribed
// the server holds, and when nothing is on its way the two hold the same.
module Agreement {
  import opened Prelude
  import opened Client
  import opened ClientRuns
  import opened ClientChannels
  import opened Answers
  import Auth
  import N = Node

  // ---- what is on its way --------------------------------------------------

  // What a message asks for one channel.
  datatype Ask = AskFor(cid: Option<int>) | GiveUp

  function AskOf(ev: N.Event, ch: string): seq<Ask> {
    match ev
    case SubscribeEvent(cid, channel, _) => if channel == ch then [AskFor(cid)] else []
    case UnsubscribeEvent(_, channel) => if channel == ch then [GiveUp] else []
    case _ => []
  }

  function AsksOf(evs: seq<N.Event>, ch: string): seq<Ask> {
    if evs == [] then [] else AskOf(evs[0], ch) + AsksOf(evs[1..], ch)
  }

  lemma {:induction false} AsksJoin(a: seq<N.Event>, b: seq<N.Event>, ch: string)
    ensures AsksOf(a + b, ch) == AsksOf(a, ch) + AsksOf(b, ch)
  {
    if a == [] {
      assert a + b == b;
    } else {
      assert (a + b)[1..] == a[1..] + b;
      AsksJoin(a[1..], b, ch);
    }
  }

  // The asks make sense to a server that holds the channel or not: nobody asks for
  // what may be held already.
  ghost predicate Ready(asks: seq<Ask>, held: bool) {
    asks == [] || (if asks[0].AskFor? then !held && Ready(asks[1..], true) else Ready(asks[1..], false))
  }

  // The server may hold the channel once all is done.
  predicate EndHold(asks: seq<Ask>, held: bool) {
    if asks == [] then held else asks[|asks| - 1].AskFor?
  }

  lemma {:induction false} ReadyLess(asks: seq<Ask>)
    requires Ready(asks, true)
    ensures Ready(asks, false)
  {
  }

  lemma {:induction false} ReadyMore(asks: seq<Ask>, held: bool, a: Ask)
    requires Ready(asks, held) && (a.AskFor? ==> !EndHold(asks, held))
    ensures Ready(asks + [a], held)
  {
    if asks != [] {
      assert (asks + [a])[1..] == asks[1..] + [a];
      ReadyMore(asks[1..], asks[0].AskFor?, a);
    }
  }

  function Cid(ev: N.Event): Option<int> {
    match ev
    case Handshake(cid, _) => cid
    case LoginEvent(cid, _) => cid
    case Authenticate(cid, _) => cid
    case RemoveAuthToken(cid) => cid
    case SubscribeEvent(cid, _, _) => cid
    case UnsubscribeEvent(cid, _) => cid
    case PublishEvent(cid, _, _) => cid
    case Disconnect => None
    case Unknown(cid, _) => cid
  }

  // The calls on the wire are numbered in increasing order, below `cid`.
  ghost predicate Numbered(wire: seq<N.Event>, cid: nat) {
    && (forall i | 0 <= i < |wire| && Cid(wire[i]).Some? :: 0 <= Cid(wire[i]).value < cid)
    && (forall i, j | 0 <= i < j < |wire| && Cid(wire[i]).Some? && Cid(wire[j]).Some? :: Cid(wire[i]).value < Cid(wire[j]).value)
    && (forall i | 0 <= i < |wire| && wire[i].SubscribeEvent? :: Cid(wire[i]).Some?)
  }

  // The answers on their way are in the order of the calls, all of which the server
  // has handled.
  ghost predicate AnswersOk(wire: seq<N.Event>, handled: nat, cid: nat, answers: seq<Answer>) {
    && (forall i, j | 0 <= i < j < |answers| :: answers[i].rid < answers[j].rid)
    && (forall i | 0 <= i < |answers| :: 0 <= answers[i].rid < cid)
    && (forall i, j | 0 <= i < |answers| && handled <= j < |wire| && Cid(wire[j]).Some? :: answers[i].rid < Cid(wire[j]).value)
  }

  // ---- the two sides of one channel ----------------------------------------

  // The channel waits for the answer to call `k`.
  ghost predicate Waits(c: Client, ch: string, k: nat) {
    k in c.calls && c.calls[k] == Channel(ch)
  }

  ghost predicate WaitsAny(c: Client, ch: string) { CallsChannel(c, ch) }

  // `asks` is on its way to a server that holds the channel or not.
  ghost predicate Agreed(c: Client, asks: seq<Ask>, ch: string, held: bool, answers: seq<Answer>, closed: bool) {
    && Ready(asks, held)
    // A call is still on its way, or answered truly.
    && (forall k: nat | Waits(c, ch, k) ::
          if asks != [] then asks[|asks| - 1] == AskFor(Some(k))
          else Answer(k, !held) !in answers && (closed || Answer(k, held) in answers))
    // Subscribed means held, with nothing on its way to change it.
    && (ChanOf(c, ch).state == Subscribed ==> asks == [] && held)
    // Otherwise the channel will not be held.
    && (ChanOf(c, ch).state != Subscribed && !WaitsAny(c, ch) ==> !EndHold(asks, held))
  }

  // Call `k` is older than all that is on its way.
  ghost predicate Below(up: seq<N.Event>, k: nat) {
    forall i | 0 <= i < |up| && Cid(up[i]).Some? :: k < Cid(up[i]).value
  }

  // The call of a channel that nothing on its way asks for has been handled.
  ghost predicate Placed(c: Client, up: seq<N.Event>) {
    forall k: nat, ch | Waits(c, ch, k) && AsksOf(up, ch) == [] :: Below(up, k)
  }

  // The whole of a session, while the client has not heard of a close.
  ghost predicate SidesAgree(c: Client, handled: nat, held: set<string>, answers: seq<Answer>, closed: bool) {
    && handled <= |c.wire| && Inv(c) && c.conn != Closed && "" !in held
    && Numbered(c.wire, c.cid) && AnswersOk(c.wire, handled, c.cid, answers) && Placed(c, c.wire[handled..])
    && forall ch :: Agreed(c, AsksOf(c.wire[handled..], ch), ch, ch in held, answers, closed)
  }

  // ---- the client's steps --------------------------------------------------

  // The client has sent `more`, with new call ids.
  ghost predicate NewlyNumbered(c: Client, d: Client, more: seq<N.Event>) {
    && d.wire == c.wire + more && d.cid >= c.cid
    && Numbered(more, d.cid) && (forall i | 0 <= i < |more| && Cid(more[i]).Some? :: c.cid <= Cid(more[i]).value)
  }

  lemma WireGrows(c: Client, d: Client, handled: nat, answers: seq<Answer>, more: seq<N.Event>)
    requires handled <= |c.wire| && NewlyNumbered(c, d, more)
    requires Numbered(c.wire, c.cid) && AnswersOk(c.wire, handled, c.cid, answers)
    ensures Numbered(d.wire, d.cid) && AnswersOk(d.wire, handled, d.cid, answers)
    ensures d.wire[handled..] == c.wire[handled..] + more
  {
    var w := d.wire;
    assert forall i | 0 <= i < |c.wire| :: w[i] == c.wire[i];
    assert forall i | |c.wire| <= i < |w| :: w[i] == more[i - |c.wire|];
  }

  lemma PlacedGrows(c: Client, d: Client, handled: nat, more: seq<N.Event>)
    requires Inv(c) && handled <= |c.wire| && Placed(c, c.wire[handled..]) && NewlyNumbered(c, d, more)
    requires forall k: nat, ch | Waits(d, ch, k) :: Waits(c, ch, k) || AsksOf(more, ch) != []
    ensures handled <= |d.wire| && Placed(d, d.wire[handled..])
  {
    var up := c.wire[handled..];
    assert d.wire[handled..] == up + more;
    hide PlacesOk, IssuedOk, Numbered;
    forall k: nat, ch | Waits(d, ch, k) && AsksOf(up + more, ch) == [] ensures Below(up + more, k) {
      AsksJoin(up, more, ch);
      assert Waits(c, ch, k) && k < c.cid;
      assert Below(up, k);
    }
  }

  // The client has sent nothing about channels, and none of them has changed.
  ghost predicate Quiet(c: Client, d: Client, more: seq<N.Event>) {
    && NewlyNumbered(c, d, more)
    && (forall i | 0 <= i < |more| :: !more[i].SubscribeEvent? && !more[i].UnsubscribeEvent?)
    && d.channels == c.channels
    && (forall k: nat, ch :: Waits(d, ch, k) <==> Waits(c, ch, k))
  }

  lemma {:induction false} NoAsks(evs: seq<N.Event>, ch: string)
    requires forall i | 0 <= i < |evs| :: !evs[i].SubscribeEvent? && !evs[i].UnsubscribeEvent?
    ensures AsksOf(evs, ch) == []
  {
    if evs != [] { NoAsks(evs[1..], ch); }
  }

  lemma SameWaits(c: Client, d: Client, ch: string)
    requires forall k: nat :: Waits(d, ch, k) <==> Waits(c, ch, k)
    ensures WaitsAny(d, ch) <==> WaitsAny(c, ch)
  {
    if WaitsAny(c, ch) {
      var k :| k in c.calls && c.calls[k] == Channel(ch);
      assert Waits(c, ch, k) && Waits(d, ch, k);
    }
    if WaitsAny(d, ch) {
      var k :| k in d.calls && d.calls[k] == Channel(ch);
      assert Waits(d, ch, k) && Waits(c, ch, k);
    }
  }

  // One channel, untouched.
  lemma AgreedSame(c: Client, d: Client, asks: seq<Ask>, ch: string, held: bool, answers: seq<Answer>, closed: bool)
    requires Agreed(c, asks, ch, held, answers, closed)
    requires ChanOf(d, ch).state == Subscribed <==> ChanOf(c, ch).state == Subscribed
    requires forall k: nat :: Waits(d, ch, k) <==> Waits(c, ch, k)
    ensures Agreed(d, asks, ch, held, answers, closed)
  {
    hide Ready, Waits, WaitsAny;
    SameWaits(c, d, ch);
  }

  lemma QuietKeeps(c: Client, d: Client, more: seq<N.Event>, handled: nat, held: set<string>, answers: seq<Answer>, closed: bool)
    requires SidesAgree(c, handled, held, answers, closed) && Quiet(c, d, more) && Inv(d) && d.conn != Closed
    ensures SidesAgree(d, handled, held, answers, closed)
  {
    hide Numbered, AnswersOk, Inv, Agreed, Waits;
    WireGrows(c, d, handled, answers, more);
    PlacedGrows(c, d, handled, more);
    hide Placed;
    forall ch ensures Agreed(d, AsksOf(d.wire[handled..], ch), ch, ch in held, answers, closed) {
      AsksJoin(c.wire[handled..], more, ch);
      NoAsks(more, ch);
      assert AsksOf(d.wire[handled..], ch) == AsksOf(c.wire[handled..], ch);
      AgreedSame(c, d, AsksOf(c.wire[handled..], ch), ch, ch in held, answers, closed);
    }
  }

  lemma QuietThen(a: Client, b: Client, c: Client, m1: seq<N.Event>, m2: seq<N.Event>)
    requires Quiet(a, b, m1) && Quiet(b, c, m2)
    ensures Quiet(a, c, m1 + m2)
  {
    hide Waits;
    assert a.wire + (m1 + m2) == (a.wire + m1) + m2;
    var m := m1 + m2;
    assert forall i | 0 <= i < |m1| :: m[i] == m1[i];
    assert forall i | |m1| <= i < |m| :: m[i] == m2[i - |m1|];
  }

  lemma QuietNone(c: Client, d: Client)
    requires d.wire == c.wire && d.cid == c.cid && d.channels == c.channels
    requires forall k: nat, ch :: Waits(d, ch, k) <==> Waits(c, ch, k)
    ensures Quiet(c, d, [])
  {
    assert c.wire + [] == c.wire;
  }

  lemma EmitObjectQuiet(c: Client)
    requires Inv(c) && c.ready && c.buffer != []
    ensures
      var e := c.buffer[0];
      Quiet(c, EmitObject(c.(buffer := c.buffer[1..]), e), [ToEvent(e.what, if e.id in c.events.callbacks then Some(c.cid) else None)])
  {
    hide PlacesOk, IssuedOk;
    var e := c.buffer[0];
    var ev := ToEvent(e.what, if e.id in c.events.callbacks then Some(c.cid) else None);
    assert Cid(ev) == if e.id in c.events.callbacks then Some(c.cid) else None;
    var d := EmitObject(c.(buffer := c.buffer[1..]), e);
    forall k: nat, ch ensures Waits(d, ch, k) <==> Waits(c, ch, k) {
      assert c.cid !in c.calls;
    }
  }

  // A flush sends events of the page only.
  lemma {:induction false} FlushQuiet(c: Client) returns (more: seq<N.Event>)
    requires Inv(c) && Tried(c) && c.conn == Open && c.ready
    ensures Quiet(c, Flush(c), more) && Flush(c).conn == Open
    decreases |c.buffer|
  {
    hide Inv, Tried, Quiet, EmitObject;
    if c.buffer == [] {
      QuietNone(c, c);
      more := [];
    } else {
      var d := EmitObject(c.(buffer := c.buffer[1..]), c.buffer[0]);
      EmitObjectInv(c);
      EmitObjectQuiet(c);
      assert d.conn == Open && d.ready && d.buffer == c.buffer[1..] by { EmitObjectReady(c); }
      var rest := FlushQuiet(d);
      more := [ToEvent(c.buffer[0].what, if c.buffer[0].id in c.events.callbacks then Some(c.cid) else None)] + rest;
      QuietThen(c, d, Flush(c), [ToEvent(c.buffer[0].what, if c.buffer[0].id in c.events.callbacks then Some(c.cid) else None)], rest);
    }
  }

  lemma EmitObjectReady(c: Client)
    requires c.ready && c.buffer != []
    ensures var d := EmitObject(c.(buffer := c.buffer[1..]), c.buffer[0]);
      d.conn == c.conn && d.ready && d.buffer == c.buffer[1..]
  {
  }

  // ---- asking and giving up ------------------------------------------------

  lemma OneAsk(evs: seq<N.Event>, ev: N.Event, ch: string)
    ensures AsksOf(evs + [ev], ch) == AsksOf(evs, ch) + AskOf(ev, ch)
  {
    AsksJoin(evs, [ev], ch);
    assert AsksOf([ev], ch) == AskOf(ev, ch) + AsksOf([], ch);
  }

  ghost predicate NotWaiting(c: Client, ch: string) { !WaitsAny(c, ch) && ChanOf(c, ch).state != Subscribed }

  lemma UntriedWaits(c: Client, ch: string)
    requires Inv(c) && Untried(c, ch)
    ensures NotWaiting(c, ch)
  {
    hide Base;
  }

  lemma TriedWaits(c: Client, d: Client, ch: string)
    requires Inv(c) && !WaitsAny(c, ch) && d.calls == c.calls[c.cid := Channel(ch)]
    ensures forall k: nat :: Waits(d, ch, k) <==> k == c.cid
    ensures WaitsAny(d, ch)
    ensures forall k: nat, other | other != ch :: Waits(d, other, k) <==> Waits(c, other, k)
  {
    hide PlacesOk, IssuedOk;
    assert c.cid !in c.calls;
    assert d.calls[c.cid] == Channel(ch);
  }

  lemma AgreedTried(c: Client, d: Client, asks: seq<Ask>, ch: string, held: bool, answers: seq<Answer>, closed: bool)
    requires Agreed(c, asks, ch, held, answers, closed) && NotWaiting(c, ch)
    requires ChanOf(d, ch).state == Pending && (forall k: nat :: Waits(d, ch, k) <==> k == c.cid) && WaitsAny(d, ch)
    ensures Agreed(d, asks + [AskFor(Some(c.cid))], ch, held, answers, closed)
  {
    hide Ready, Waits, WaitsAny;
    ReadyMore(asks, held, AskFor(Some(c.cid)));
  }

  lemma AskedNumbered(c: Client, d: Client, ch: string)
    requires d.wire == c.wire + [N.SubscribeEvent(Some(c.cid), ch, false)] && d.cid == c.cid + 1
    ensures NewlyNumbered(c, d, [N.SubscribeEvent(Some(c.cid), ch, false)])
  {
  }

  lemma TriedPlaced(c: Client, d: Client, handled: nat, ch: string)
    requires Inv(c) && handled <= |c.wire| && Placed(c, c.wire[handled..])
    requires NewlyNumbered(c, d, [N.SubscribeEvent(Some(c.cid), ch, false)])
    requires forall k: nat, other | other != ch :: Waits(d, other, k) <==> Waits(c, other, k)
    ensures handled <= |d.wire| && Placed(d, d.wire[handled..])
  {
    var ev := N.SubscribeEvent(Some(c.cid), ch, false);
    assert AsksOf([ev], ch) == AskOf(ev, ch) + AsksOf([], ch);
    PlacedGrows(c, d, handled, [ev]);
  }

  // A request is sent for a channel that is pending without a call.
  lemma TryKeeps(c: Client, ch: string, handled: nat, held: set<string>, answers: seq<Answer>, closed: bool)
    requires SidesAgree(c, handled, held, answers, closed) && Untried(c, ch) && c.ready
    ensures SidesAgree(TrySubscribe(c, ch), handled, held, answers, closed)
  {
    hide TrySubscribe, Numbered, AnswersOk, Inv, WaitsAny, Waits, Agreed, NewlyNumbered, Untried;
    var d := TrySubscribe(c, ch);
    TrySubscribeReady(c, ch);
    AskedNumbered(c, d, ch);
    UntriedWaits(c, ch);
    WireGrows(c, d, handled, answers, [N.SubscribeEvent(Some(c.cid), ch, false)]);
    TriedWaits(c, d, ch);
    TriedPlaced(c, d, handled, ch);
    hide Placed;
    forall other ensures Agreed(d, AsksOf(d.wire[handled..], other), other, other in held, answers, closed) {
      OneAsk(c.wire[handled..], N.SubscribeEvent(Some(c.cid), ch, false), other);
      var asks := AsksOf(c.wire[handled..], other);
      if other == ch {
        AgreedTried(c, d, asks, ch, ch in held, answers, closed);
      } else {
        assert AsksOf(d.wire[handled..], other) == asks;
        AgreedSame(c, d, asks, other, other in held, answers, closed);
      }
    }
  }

  lemma {:induction false} ProcessKeeps(c: Client, order: seq<string>, handled: nat, held: set<string>, answers: seq<Answer>, closed: bool)
    requires SidesAgree(c, handled, held, answers, closed) && AllPending(c, order)
    requires ProcessPending(c, order).conn != Closed
    ensures SidesAgree(ProcessPending(c, order), handled, held, answers, closed)
    decreases |order|
  {
    hide SidesAgree, Inv, TrySubscribe;
    if order != [] {
      var name := order[0];
      var d := TrySubscribe(c, name);
      assert Inv(c) by { SidesInv(c, handled, held, answers, closed); }
      assert forall i | 0 <= i < |order| - 1 :: order[1..][i] == order[i + 1];
      if !Untried(c, name) {
        NotTried(c, name);
      } else if c.ready {
        TryKeeps(c, name, handled, held, answers, closed);
        TrySubscribeReady(c, name);
      } else {
        TrySubscribeDying(c, name);
        ProcessOff(d, order[1..]);
        assert false;
      }
      ProcessKeeps(d, order[1..], handled, held, answers, closed);
    }
  }

  lemma SidesInv(c: Client, handled: nat, held: set<string>, answers: seq<Answer>, closed: bool)
    requires SidesAgree(c, handled, held, answers, closed)
    ensures Inv(c) && c.conn != Closed && handled <= |c.wire|
  {
  }

  // ---- giving up -----------------------------------------------------------

  lemma CancelledWaits(c: Client, ch: string)
    requires Inv(c) && ch in c.channels
    ensures !WaitsAny(Cancelled(c, ch), ch)
    ensures forall k: nat, other | other != ch :: Waits(Cancelled(c, ch), other, k) <==> Waits(c, other, k)
  {
    var d := Cancelled(c, ch);
    InvBase(c);
    hide Inv;
    assert AllKnown(c);
    if c.channels[ch].call.Some? && c.channels[ch].call.value in c.calls { BaseCall(c, ch); }
    hide Base;
  }

  lemma AgreedGivenUp(c: Client, d: Client, asks: seq<Ask>, ch: string, held: bool, answers: seq<Answer>, closed: bool)
    requires Agreed(c, asks, ch, held, answers, closed)
    requires ChanOf(d, ch).state == Unsubscribed && !WaitsAny(d, ch)
    ensures Agreed(d, asks + [GiveUp], ch, held, answers, closed)
    ensures c.conn != Open && asks == [] && !held ==> Agreed(d, asks, ch, held, answers, closed)
  {
    hide Ready;
    ReadyMore(asks, held, GiveUp);
  }

  ghost predicate Idle(evs: seq<N.Event>) { forall ch :: AsksOf(evs, ch) == [] }

  // Before it is open the client has asked for nothing, and nothing is held.
  ghost predicate Fresh(c: Client, handled: nat, held: set<string>)
    requires handled <= |c.wire|
  {
    c.conn == Connecting ==> held == {} && Idle(c.wire[handled..])
  }

  lemma WaitsByCalls(c: Client, d: Client)
    requires d.calls == c.calls
    ensures forall k: nat, ch :: Waits(d, ch, k) <==> Waits(c, ch, k)
    ensures forall ch :: WaitsAny(d, ch) <==> WaitsAny(c, ch)
  {
  }

  lemma GivenUpPlaced(c: Client, e: Client, d: Client, handled: nat, ch: string, more: seq<N.Event>)
    requires Inv(c) && handled <= |c.wire| && Placed(c, c.wire[handled..]) && NewlyNumbered(c, d, more) && d.calls == e.calls
    requires !WaitsAny(e, ch) && forall k: nat, other | other != ch :: Waits(e, other, k) <==> Waits(c, other, k)
    ensures handled <= |d.wire| && Placed(d, d.wire[handled..])
  {
    WaitsByCalls(e, d);
    hide Inv;
    PlacedGrows(c, d, handled, more);
  }

  lemma GiveUpKeeps(c: Client, ch: string, more: seq<N.Event>, handled: nat, held: set<string>, answers: seq<Answer>, closed: bool)
    requires SidesAgree(c, handled, held, answers, closed) && ch in c.channels
    requires more == [N.UnsubscribeEvent(None, ch)] || (more == [] && AsksOf(c.wire[handled..], ch) == [] && ch !in held && c.conn != Open)
    requires var d := Cancelled(c, ch).(wire := c.wire + more); Inv(d)
    ensures SidesAgree(Cancelled(c, ch).(wire := c.wire + more), handled, held, answers, closed)
  {
    hide Numbered, AnswersOk, Inv, WaitsAny, Waits, Agreed, NewlyNumbered, Placed;
    var e := Cancelled(c, ch);
    var d := e.(wire := c.wire + more);
    CancelledWaits(c, ch);
    WaitsByCalls(e, d);
    GiveUpNumbered(c, d, more);
    WireGrows(c, d, handled, answers, more);
    GivenUpPlaced(c, e, d, handled, ch, more);
    forall other ensures Agreed(d, AsksOf(d.wire[handled..], other), other, other in held, answers, closed) {
      var asks := AsksOf(c.wire[handled..], other);
      GiveUpAsks(c.wire[handled..], more, ch, other);
      if other == ch {
        AgreedGivenUp(c, d, asks, ch, ch in held, answers, closed);
      } else {
        AgreedSame(c, d, asks, other, other in held, answers, closed);
      }
    }
  }

  lemma GiveUpAsks(up: seq<N.Event>, more: seq<N.Event>, ch: string, other: string)
    requires more == [N.UnsubscribeEvent(None, ch)] || more == []
    ensures AsksOf(up + more, other) == if other == ch && more != [] then AsksOf(up, other) + [GiveUp] else AsksOf(up, other)
  {
    if more == [] { assert up + more == up; } else { OneAsk(up, more[0], other); }
  }

  lemma UnsubscribeKeeps(c: Client, ch: string, handled: nat, held: set<string>, answers: seq<Answer>, closed: bool)
    requires SidesAgree(c, handled, held, answers, closed) && Tried(c) && Fresh(c, handled, held)
    requires Unsubscribe(c, ch).conn != Closed
    ensures SidesAgree(Unsubscribe(c, ch), handled, held, answers, closed)
  {
    if ChanOf(c, ch).state != Unsubscribed {
      CancelIs(c, ch);
      CancelledInv(c, ch);
      hide Numbered, AnswersOk, Inv, Agreed, Tried, Placed;
      var e := Cancelled(c, ch);
      var d := Unsubscribe(c, ch);
      var more := if c.conn == Open then [N.UnsubscribeEvent(None, ch)] else [];
      assert d == e.(wire := c.wire + more) by { assert c.wire + [] == c.wire; }
      if c.conn == Open { SendInv(e, N.UnsubscribeEvent(None, ch)); }
      GiveUpKeeps(c, ch, more, handled, held, answers, closed);
    }
  }

  lemma GiveUpNumbered(c: Client, d: Client, more: seq<N.Event>)
    requires d.wire == c.wire + more && d.cid == c.cid && forall i | 0 <= i < |more| :: more[i].UnsubscribeEvent? && Cid(more[i]).None?
    ensures NewlyNumbered(c, d, more)
  {
  }

  lemma PlacedLess(c: Client, d: Client, up: seq<N.Event>)
    requires Placed(c, up) && forall k: nat, ch :: Waits(d, ch, k) ==> Waits(c, ch, k)
    ensures Placed(d, up)
  {
    hide Waits, Below;
  }

  lemma SubscribeKeeps(c: Client, ch: string, handled: nat, held: set<string>, answers: seq<Answer>, closed: bool)
    requires SidesAgree(c, handled, held, answers, closed) && Tried(c)
    requires Subscribe(c, ch).conn != Closed
    ensures SidesAgree(Subscribe(c, ch), handled, held, answers, closed)
  {
    hide Numbered, AnswersOk, WaitsAny, Waits, Agreed, NewlyNumbered, Tried, Base, TrySubscribe;
    if ChanOf(c, ch).state == Unsubscribed {
      var d := SetChan(c, ch, ChanOf(c, ch).(state := Pending));
      assert ChanOk(d, d.channels[ch]);
      SetChanInv(c, ch, ChanOf(c, ch).(state := Pending));
      WaitsByCalls(c, d);
      hide Inv;
      PlacedLess(c, d, c.wire[handled..]);
      hide Placed;
      forall other ensures Agreed(d, AsksOf(d.wire[handled..], other), other, other in held, answers, closed) {
        AgreedSame(c, d, AsksOf(c.wire[handled..], other), other, other in held, answers, closed);
      }
      assert SidesAgree(d, handled, held, answers, closed);
      hide SidesAgree;
      if !Untried(d, ch) {
        NotTried(d, ch);
      } else if c.ready {
        TryKeeps(d, ch, handled, held, answers, closed);
      } else {
        TrySubscribeDying(d, ch);
      }
    }
  }

  lemma EmitKeeps(c: Client, what: UserEvent, callback: bool, handled: nat, held: set<string>, answers: seq<Answer>, closed: bool)
    requires SidesAgree(c, handled, held, answers, closed) && Tried(c)
    requires Emit(c, what, callback).conn != Closed
    ensures SidesAgree(Emit(c, what, callback), handled, held, answers, closed)
  {
    hide Inv, Tried, Flush, Quiet;
    var d := Buffer(c, what, callback);
    BufferInv(c, what, callback);
    WaitsByCalls(c, d);
    QuietNone(c, d);
    QuietKeeps(c, d, [], handled, held, answers, closed);
    hide SidesAgree;
    if d.conn == Open {
      if c.ready { FlushedKeeps(d, handled, held, answers, closed); } else { FlushDying(d); }
    }
  }

  lemma FlushedKeeps(c: Client, handled: nat, held: set<string>, answers: seq<Answer>, closed: bool)
    requires SidesAgree(c, handled, held, answers, closed) && Tried(c) && c.conn == Open && c.ready
    ensures SidesAgree(Flush(c), handled, held, answers, closed)
  {
    hide Inv, Quiet;
    var more := FlushQuiet(c);
    FlushInvReady(c);
    QuietKeeps(c, Flush(c), more, handled, held, answers, closed);
  }

  lemma FlushInvReady(c: Client)
    requires Inv(c) && Tried(c) && c.conn == Open
    ensures Inv(Flush(c)) && Tried(Flush(c))
  {
    FlushInv(c);
  }

  // Emitting on a socket that is closing ends the connection.
  lemma FlushDying(c: Client)
    requires Inv(c) && c.conn == Open && !c.ready
    ensures c.buffer != [] ==> Flush(c).conn == Closed
    ensures c.buffer == [] ==> Flush(c) == c
  {
    if c.buffer != [] {
      var b := c.(buffer := c.buffer[1..]);
      var e := c.buffer[0];
      EmitObjectInv(c);
      hide Inv, OnClose;
      var d := EmitObject(b, e);
      assert d.conn == Closed;
      FlushClosed(d);
    }
  }

  lemma {:induction false} FlushClosed(c: Client)
    requires c.conn == Closed && !c.ready
    ensures Flush(c).conn == Closed
    decreases |c.buffer|
  {
    if c.buffer != [] {
      var d := EmitObject(c.(buffer := c.buffer[1..]), c.buffer[0]);
      assert d.conn == Closed && !d.ready;
      FlushClosed(d);
    }
  }

  // ---- reading an answer ---------------------------------------------------

  lemma AnswersDrop(wire: seq<N.Event>, handled: nat, cid: nat, a: Answer, rest: seq<Answer>)
    requires handled <= |wire| && AnswersOk(wire, handled, cid, [a] + rest)
    ensures AnswersOk(wire, handled, cid, rest)
    ensures forall i | 0 <= i < |rest| :: a.rid < rest[i].rid
    ensures forall j | handled <= j < |wire| && Cid(wire[j]).Some? :: a.rid < Cid(wire[j]).value
  {
    var all := [a] + rest;
    assert all[0] == a;
    assert forall i | 0 <= i < |rest| :: rest[i] == all[i + 1];
  }

  // The answer read was not for this channel.
  lemma AgreedOther(c: Client, d: Client, asks: seq<Ask>, ch: string, held: bool, a: Answer, rest: seq<Answer>, closed: bool)
    requires Agreed(c, asks, ch, held, [a] + rest, closed)
    requires ChanOf(d, ch).state == Subscribed <==> ChanOf(c, ch).state == Subscribed
    requires forall k: nat :: Waits(d, ch, k) <==> Waits(c, ch, k)
    requires forall k: nat :: Waits(c, ch, k) ==> k != a.rid
    ensures Agreed(d, asks, ch, held, rest, closed)
  {
    hide Ready, Waits, WaitsAny;
    SameWaits(c, d, ch);
    assert forall k: nat :: Answer(k, held) in [a] + rest ==> Answer(k, held) == a || Answer(k, held) in rest;
  }

  lemma {:induction false} AskIsNot(evs: seq<N.Event>, ch: string, k: int)
    requires forall i | 0 <= i < |evs| :: Cid(evs[i]) != Some(k)
    ensures AskFor(Some(k)) !in AsksOf(evs, ch)
  {
    if evs != [] {
      assert forall i | 0 <= i < |evs| - 1 :: evs[1..][i] == evs[i + 1];
      AskIsNot(evs[1..], ch, k);
      assert Cid(evs[0]) != Some(k);
    }
  }

  // The channel hears the answer to its call: it tells the truth, and nothing is on
  // its way behind it.
  lemma Heard(c: Client, handled: nat, held: set<string>, a: Answer, rest: seq<Answer>, closed: bool, ch: string)
    requires SidesAgree(c, handled, held, [a] + rest, closed) && a.rid >= 0 && Waits(c, ch, a.rid)
    ensures AsksOf(c.wire[handled..], ch) == [] && (a.ok <==> ch in held)
  {
    hide Inv, Ready, Numbered;
    AnswersDrop(c.wire, handled, c.cid, a, rest);
    hide AnswersOk;
    var up := c.wire[handled..];
    assert forall i | 0 <= i < |up| :: up[i] == c.wire[handled + i];
    AskIsNot(up, ch, a.rid);
    assert Agreed(c, AsksOf(up, ch), ch, ch in held, [a] + rest, closed);
    assert a in [a] + rest;
  }

  lemma AnsweredWaits(c: Client, d: Client, k: nat)
    requires Inv(c) && k in c.calls && d.calls == c.calls - {k}
    ensures c.calls[k].Channel? ==> !WaitsAny(d, c.calls[k].channel) && c.calls[k].channel in c.channels
    ensures forall j: nat, ch | c.calls[k] != Channel(ch) :: Waits(d, ch, j) <==> Waits(c, ch, j)
    ensures forall j: nat, ch | c.calls[k] != Channel(ch) :: Waits(c, ch, j) ==> j != k
  {
    hide Base;
    if c.calls[k].Channel? {
      var ch := c.calls[k].channel;
      assert forall j: nat :: Waits(c, ch, j) ==> j == k;
    }
  }

  lemma AgreedHeard(d: Client, ch: string, held: bool, answers: seq<Answer>, closed: bool)
    requires !WaitsAny(d, ch) && (ChanOf(d, ch).state == Subscribed <==> held)
    ensures Agreed(d, [], ch, held, answers, closed)
  {
  }

  lemma HeardPlaced(c: Client, d: Client, up: seq<N.Event>, name: string)
    requires Placed(c, up) && !WaitsAny(d, name)
    requires forall j: nat, ch | ch != name :: Waits(d, ch, j) <==> Waits(c, ch, j)
    ensures Placed(d, up)
  {
    PlacedLess(c, d, up);
  }

  lemma ChannelHears(c: Client, handled: nat, held: set<string>, a: Answer, rest: seq<Answer>, closed: bool, name: string)
    requires SidesAgree(c, handled, held, [a] + rest, closed) && Tried(c) && c.conn == Open
    requires a.rid >= 0 && a.rid in c.calls && c.calls[a.rid] == Channel(name)
    ensures SidesAgree(SetChan(c.(calls := c.calls - {a.rid}), name, Chan(if a.ok then Subscribed else Unsubscribed, None)), handled, held, rest, closed)
  {
    var d := SetChan(c.(calls := c.calls - {a.rid}), name, Chan(if a.ok then Subscribed else Unsubscribed, None));
    ChannelAnswered(c, a.rid, name, a.ok);
    AnsweredWaits(c, d, a.rid);
    Heard(c, handled, held, a, rest, closed, name);
    AnswersDrop(c.wire, handled, c.cid, a, rest);
    HeardPlaced(c, d, c.wire[handled..], name);
    hide Inv, Waits, WaitsAny, Agreed, Numbered, AnswersOk, Placed;
    forall ch ensures Agreed(d, AsksOf(d.wire[handled..], ch), ch, ch in held, rest, closed) {
      if ch == name {
        AgreedHeard(d, ch, ch in held, rest, closed);
      } else {
        AgreedOther(c, d, AsksOf(c.wire[handled..], ch), ch, ch in held, a, rest, closed);
      }
    }
  }

  // Any other answer, or one that nobody waits for.
  lemma OthersHear(c: Client, d: Client, handled: nat, held: set<string>, a: Answer, rest: seq<Answer>, closed: bool)
    requires SidesAgree(c, handled, held, [a] + rest, closed)
    requires d.wire == c.wire && d.channels == c.channels && d.cid == c.cid && d.conn != Closed && Inv(d)
    requires a.rid >= 0 && a.rid in c.calls ==> !c.calls[a.rid].Channel? && d.calls == c.calls - {a.rid}
    requires !(a.rid >= 0 && a.rid in c.calls) ==> d.calls == c.calls
    ensures SidesAgree(d, handled, held, rest, closed)
  {
    AnswersDrop(c.wire, handled, c.cid, a, rest);
    OtherWaits(c, d, a);
    hide Inv, Waits, WaitsAny, Agreed, Numbered, AnswersOk, Below;
    forall ch ensures Agreed(d, AsksOf(d.wire[handled..], ch), ch, ch in held, rest, closed) {
      AgreedOther(c, d, AsksOf(c.wire[handled..], ch), ch, ch in held, a, rest, closed);
    }
  }

  lemma OtherWaits(c: Client, d: Client, a: Answer)
    requires Inv(c)
    requires a.rid >= 0 && a.rid in c.calls ==> !c.calls[a.rid].Channel? && d.calls == c.calls - {a.rid}
    requires !(a.rid >= 0 && a.rid in c.calls) ==> d.calls == c.calls
    ensures forall j: nat, ch :: Waits(d, ch, j) <==> Waits(c, ch, j)
    ensures forall j: nat, ch :: Waits(c, ch, j) ==> j != a.rid
  {
    hide Base, Inv;
  }

  lemma {:induction false} ProcessConn(c: Client, order: seq<string>)
    ensures ProcessPending(c, order).conn == c.conn || ProcessPending(c, order).conn == Closed
    decreases |order|
  {
    if order != [] {
      TryConn(c, order[0]);
      hide TrySubscribe;
      ProcessConn(TrySubscribe(c, order[0]), order[1..]);
    }
  }

  lemma TryConn(c: Client, name: string)
    ensures TrySubscribe(c, name).conn == c.conn || TrySubscribe(c, name).conn == Closed
  {
    hide OnClose;
  }

  // The connection is open: nothing else is different.
  lemma OpenedKeeps(c: Client, order: seq<string>, handled: nat, held: set<string>, answers: seq<Answer>, closed: bool)
    requires SidesAgree(c, handled, held, answers, closed) && ListsPending(c, order)
    ensures SidesAgree(c.(conn := Open), handled, held, answers, closed) && ListsPending(c.(conn := Open), order)
  {
    var d := c.(conn := Open);
    ConnOnly(c, d);
    WaitsByCalls(c, d);
    assert Inv(d);
    assert ListsPending(d, order) by { assert forall name :: IsPending(d, name) == IsPending(c, name); }
    hide Inv, ListsPending, Quiet;
    QuietNone(c, d);
    QuietKeeps(c, d, [], handled, held, answers, closed);
  }

  lemma OpenKeeps(c: Client, order: seq<string>, handled: nat, held: set<string>, answers: seq<Answer>, closed: bool)
    requires SidesAgree(c, handled, held, answers, closed) && ListsPending(c, order)
    requires OnOpen(c, order).conn != Closed
    ensures SidesAgree(OnOpen(c, order), handled, held, answers, closed)
  {
    hide Inv, ListsPending, SidesAgree, Flush;
    var d := c.(conn := Open);
    OpenedKeeps(c, order, handled, held, answers, closed);
    SidesInv(d, handled, held, answers, closed);
    ProcessTried(d, order);
    ProcessPendingInv(d, order);
    ProcessConn(d, order);
    var p := ProcessPending(d, order);
    if p.conn == Open {
      ProcessKeeps(d, order, handled, held, answers, closed);
      hide ProcessPending;
      if p.ready { FlushedKeeps(p, handled, held, answers, closed); } else { FlushDying(p); }
    }
  }

  // The client reads an answer.
  lemma ReadKeeps(c: Client, handled: nat, held: set<string>, a: Answer, rest: seq<Answer>, closed: bool, order: seq<string>)
    requires SidesAgree(c, handled, held, [a] + rest, closed) && Tried(c) && ListsPending(c, order)
    requires OnAnswer(c, a.rid, a.ok, order).conn != Closed
    ensures SidesAgree(OnAnswer(c, a.rid, a.ok, order), handled, held, rest, closed)
  {
    if a.rid >= 0 && a.rid in c.calls {
      var d := c.(calls := c.calls - {a.rid});
      match c.calls[a.rid]
      case Handshake =>
        HandshakeOver(c, a.rid);
        OthersHear(c, d, handled, held, a, rest, closed);
        assert ListsPending(d, order) by { assert forall name :: IsPending(d, name) == IsPending(c, name); }
        hide SidesAgree, ListsPending;
        if a.ok { OpenKeeps(d, order, handled, held, rest, closed); }
      case Channel(name) => ChannelHears(c, handled, held, a, rest, closed, name);
      case User(id) =>
        UserAnswered(c, d.(events := AnswerEvent(d.events, id)), a.rid, id);
        OthersHear(c, d.(events := AnswerEvent(d.events, id)), handled, held, a, rest, closed);
    } else {
      OthersHear(c, c, handled, held, a, rest, closed);
    }
  }

  // ---- the server's steps --------------------------------------------------

  lemma UpTail(wire: seq<N.Event>, handled: nat, ch: string)
    requires handled < |wire|
    ensures AsksOf(wire[handled..], ch) == AskOf(wire[handled], ch) + AsksOf(wire[handled + 1..], ch)
  {
    assert wire[handled..][1..] == wire[handled + 1..];
  }

  // The server handles a message that is not about this channel; it may answer.
  lemma AgreedAside(c: Client, asks: seq<Ask>, ch: string, held: bool, answers: seq<Answer>, more: seq<Answer>, closed: bool, now: bool)
    requires Agreed(c, asks, ch, held, answers, closed) && (closed ==> now)
    requires forall k: nat, ok :: Waits(c, ch, k) ==> Answer(k, ok) !in more
    ensures Agreed(c, asks, ch, held, answers + more, now)
  {
    hide Ready, Waits, WaitsAny;
  }

  // It handles a request for the channel, and says whether it holds it now.
  lemma AgreedAnswered(c: Client, asks: seq<Ask>, ch: string, cid: nat, held: bool, answers: seq<Answer>, more: seq<Answer>, closed: bool, now: bool)
    requires Agreed(c, [AskFor(Some(cid))] + asks, ch, false, answers, closed) && (closed ==> now)
    requires forall i | 0 <= i < |answers| :: answers[i].rid < cid
    requires more == [Answer(cid, held)] || (now && more == [])
    ensures Agreed(c, asks, ch, held, answers + more, now)
  {
    var all := [AskFor(Some(cid))] + asks;
    assert all[1..] == asks;
    assert Ready(asks, true);
    if !held { ReadyLess(asks); }
    hide Ready, Waits, WaitsAny;
    assert asks != [] ==> all[|all| - 1] == asks[|asks| - 1];
  }

  lemma AgreedGone(c: Client, asks: seq<Ask>, ch: string, held: bool, answers: seq<Answer>, more: seq<Answer>, closed: bool, now: bool)
    requires Agreed(c, [GiveUp] + asks, ch, held, answers, closed) && (closed ==> now)
    requires forall k: nat, ok :: Waits(c, ch, k) ==> Answer(k, ok) !in more
    ensures Agreed(c, asks, ch, false, answers + more, now)
  {
    var all := [GiveUp] + asks;
    assert all[1..] == asks;
    assert Ready(asks, false);
    hide Ready, WaitsAny;
    assert all[|all| - 1] == if asks == [] then GiveUp else asks[|asks| - 1];
  }

  // The one answer to a message, if any, is new, and no channel but that of a request
  // waits for it.
  lemma AnswerIsNew(c: Client, handled: nat, held: set<string>, answers: seq<Answer>, closed: bool, ch: string, k: nat)
    requires SidesAgree(c, handled, held, answers, closed) && handled < |c.wire| && Waits(c, ch, k)
    requires AskOf(c.wire[handled], ch) == [] || AskOf(c.wire[handled], ch) == [GiveUp]
    requires Cid(c.wire[handled]).Some?
    ensures Cid(c.wire[handled]).value != k
  {
    var up := c.wire[handled..];
    var rest := c.wire[handled + 1..];
    UpTail(c.wire, handled, ch);
    hide Inv, AnswersOk, Ready;
    assert Agreed(c, AsksOf(up, ch), ch, ch in held, answers, closed);
    assert up[0] == c.wire[handled];
    if AsksOf(up, ch) == [] {
      assert Below(up, k);
    } else {
      var j := Cid(c.wire[handled]).value;
      assert forall i | 0 <= i < |rest| :: rest[i] == c.wire[handled + 1 + i];
      AskIsNot(rest, ch, j);
    }
  }

  // What the server makes of a message: whether it holds the channel, and what it
  // answers, unless the socket is closed.
  ghost predicate Serves(ev: N.Event, held: set<string>, after: set<string>, more: seq<Answer>, now: bool) {
    && (match ev
        case SubscribeEvent(cid, ch, _) =>
          && (after == held + {ch} || after == held) && ("" !in held ==> "" !in after)
          && ((now && more == []) || (cid.Some? && |more| == 1 && (ch !in held ==> (more[0].ok <==> ch in after)))
              || (cid.None? && more == []))
        case UnsubscribeEvent(_, ch) => after == held - {ch}
        case _ => after == held)
    && (more == [] || (Cid(ev).Some? && |more| == 1 && more[0].rid == Cid(ev).value))
  }

  lemma AnswersMore(wire: seq<N.Event>, handled: nat, cid: nat, answers: seq<Answer>, more: seq<Answer>)
    requires handled < |wire| && Numbered(wire, cid) && AnswersOk(wire, handled, cid, answers)
    requires more == [] || (Cid(wire[handled]).Some? && |more| == 1 && more[0].rid == Cid(wire[handled]).value)
    ensures AnswersOk(wire, handled + 1, cid, answers + more)
  {
  }

  lemma PlacedHandled(c: Client, handled: nat)
    requires handled < |c.wire| && Numbered(c.wire, c.cid) && Placed(c, c.wire[handled..])
    requires forall k: nat, ch | Waits(c, ch, k) && AsksOf(c.wire[handled..], ch) != [] ::
      AsksOf(c.wire[handled..], ch)[|AsksOf(c.wire[handled..], ch)| - 1] == AskFor(Some(k))
    ensures Placed(c, c.wire[handled + 1..])
  {
    var up := c.wire[handled..];
    var rest := c.wire[handled + 1..];
    hide Waits;
    assert forall i | 0 <= i < |rest| :: rest[i] == up[i + 1] == c.wire[handled + 1 + i];
    forall k: nat, ch | Waits(c, ch, k) && AsksOf(rest, ch) == [] ensures Below(rest, k) {
      UpTail(c.wire, handled, ch);
      if AsksOf(up, ch) == [] {
        assert Below(up, k);
      } else {
        assert AskOf(c.wire[handled], ch) == [AskFor(Some(k))];
        assert Cid(c.wire[handled]) == Some(k as int);
      }
    }
  }

  lemma MoreIsNew(c: Client, handled: nat, held: set<string>, answers: seq<Answer>, closed: bool, ch: string, more: seq<Answer>)
    requires SidesAgree(c, handled, held, answers, closed) && handled < |c.wire|
    requires AskOf(c.wire[handled], ch) == [] || AskOf(c.wire[handled], ch) == [GiveUp]
    requires more == [] || (Cid(c.wire[handled]).Some? && |more| == 1 && more[0].rid == Cid(c.wire[handled]).value)
    ensures forall k: nat, ok :: Waits(c, ch, k) ==> Answer(k, ok) !in more
  {
    hide SidesAgree, Waits;
    forall k: nat, ok | Waits(c, ch, k) ensures Answer(k, ok) !in more {
      if more != [] { AnswerIsNew(c, handled, held, answers, closed, ch, k); }
    }
  }

  lemma ChannelServed(c: Client, handled: nat, held: set<string>, after: set<string>, answers: seq<Answer>, more: seq<Answer>, closed: bool, now: bool, ch: string)
    requires SidesAgree(c, handled, held, answers, closed) && handled < |c.wire|
    requires Serves(c.wire[handled], held, after, more, now) && (closed ==> now)
    ensures Agreed(c, AsksOf(c.wire[handled + 1..], ch), ch, ch in after, answers + more, now)
  {
    hide Inv, Placed;
    var ev := c.wire[handled];
    var rest := AsksOf(c.wire[handled + 1..], ch);
    UpTail(c.wire, handled, ch);
    assert Agreed(c, AskOf(ev, ch) + rest, ch, ch in held, answers, closed);
    if ev.SubscribeEvent? && ev.channel == ch {
      var cid := Cid(ev).value;
      assert ([AskFor(Some(cid))] + rest)[0] == AskFor(Some(cid));
      assert ch !in held;
      assert more == [] || more == [Answer(cid, ch in after)];
      hide Agreed;
      AgreedAnswered(c, rest, ch, cid, ch in after, answers, more, closed, now);
    } else {
      MoreIsNew(c, handled, held, answers, closed, ch, more);
      hide Agreed, SidesAgree;
      if ev.UnsubscribeEvent? && ev.channel == ch {
        AgreedGone(c, rest, ch, ch in held, answers, more, closed, now);
      } else {
        assert AskOf(ev, ch) + rest == rest;
        AgreedAside(c, rest, ch, ch in held, answers, more, closed, now);
      }
    }
  }

  // The server handles the first message on its way.
  lemma HandleKeeps(c: Client, handled: nat, held: set<string>, after: set<string>, answers: seq<Answer>, more: seq<Answer>, closed: bool, now: bool)
    requires SidesAgree(c, handled, held, answers, closed) && handled < |c.wire|
    requires Serves(c.wire[handled], held, after, more, now) && (closed ==> now)
    ensures SidesAgree(c, handled + 1, after, answers + more, now)
  {
    hide Inv, Agreed, Waits;
    forall ch ensures Agreed(c, AsksOf(c.wire[handled + 1..], ch), ch, ch in after, answers + more, now) {
      ChannelServed(c, handled, held, after, answers, more, closed, now, ch);
    }
    AnswersMore(c.wire, handled, c.cid, answers, more);
    WaitingLast(c, handled, held, answers, closed);
    PlacedHandled(c, handled);
  }

  lemma WaitingLast(c: Client, handled: nat, held: set<string>, answers: seq<Answer>, closed: bool)
    requires SidesAgree(c, handled, held, answers, closed)
    ensures forall k: nat, ch | Waits(c, ch, k) && AsksOf(c.wire[handled..], ch) != [] ::
      AsksOf(c.wire[handled..], ch)[|AsksOf(c.wire[handled..], ch)| - 1] == AskFor(Some(k))
  {
    hide Inv, Waits, Ready, Numbered, AnswersOk, Placed;
    forall k: nat, ch | Waits(c, ch, k) && AsksOf(c.wire[handled..], ch) != []
      ensures AsksOf(c.wire[handled..], ch)[|AsksOf(c.wire[handled..], ch)| - 1] == AskFor(Some(k))
    {
      assert Agreed(c, AsksOf(c.wire[handled..], ch), ch, ch in held, answers, closed);
    }
  }

  // Time passes on the server: its socket may be closed.
  lemma ClosingKeeps(c: Client, handled: nat, held: set<string>, answers: seq<Answer>, closed: bool, now: bool)
    requires SidesAgree(c, handled, held, answers, closed) && (closed ==> now)
    ensures SidesAgree(c, handled, held, answers, now)
  {
    hide Inv, Numbered, AnswersOk, Placed, Ready;
    forall ch ensures Agreed(c, AsksOf(c.wire[handled..], ch), ch, ch in held, answers, now) {
      assert Agreed(c, AsksOf(c.wire[handled..], ch), ch, ch in held, answers, closed);
    }
  }
}
