// The SocketCluster client of the browser (SCClientSocket with its SCTransport):
// channels, calls that wait for an answer, and the buffer of events to emit. One
// step is one turn of the event loop; user callbacks do not call back in.
module Client {
  import opened Prelude
  import opened Auth
  import Node

  datatype Conn = Closed | Connecting | Open

  datatype ChanState = Unsubscribed | Pending | Subscribed

  // `call` is the channel's _pendingSubscriptionCid.
  datatype Chan = Chan(state: ChanState, call: Option<nat>)

  // Whose callback waits for the answer to a call.
  datatype Owner = Handshake | Channel(channel: string) | User(id: nat)

  // What a page emits, without the call id.
  datatype UserEvent =
    | Login(request: Node.LoginRequest)
    | PublishData(channel: string, data: string)
    | RemoveToken
    | Custom(name: string)

  datatype Emitted = Emitted(id: nat, what: UserEvent)

  // What the client keeps of the events of the page, by their number: whose timer
  // runs, who still has a callback, and which call id an event went out with.
  // `asked` and `fired` are history that nothing reads: the events emitted with a
  // callback, and the callbacks called.
  datatype Events = Events(timers: set<nat>, callbacks: set<nat>, cids: map<nat, nat>, asked: set<nat>, fired: seq<nat>)

  // `ready` tells whether the WebSocket is open: it may have begun to close before
  // the close event arrives. `wire` is all that was sent on this connection, and
  // `issued` the history of the call ids handed out.
  datatype Client = Client(
    conn: Conn, ready: bool, channels: map<string, Chan>,
    cid: nat, calls: map<nat, Owner>, buffer: seq<Emitted>, nextId: nat,
    wire: seq<Node.Event>, events: Events, issued: seq<nat>)

  function NewClient(): Client {
    Client(Closed, false, map[], 1, map[], [], 0, [], Events({}, {}, map[], {}, []), [])
  }

  function ChanOf(c: Client, name: string): Chan {
    if name in c.channels then c.channels[name] else Chan(Unsubscribed, None)
  }

  function SetChan(c: Client, name: string, chan: Chan): Client { c.(channels := c.channels[name := chan]) }

  function ToEvent(what: UserEvent, cid: Option<int>): Node.Event {
    match what
    case Login(request) => Node.LoginEvent(cid, request)
    case PublishData(channel, data) => Node.PublishEvent(cid, channel, data)
    case RemoveToken => Node.RemoveAuthToken(cid)
    case Custom(name) => Node.Unknown(cid, name)
  }

  // ---- closing -------------------------------------------------------------

  // _triggerChannelSubscribeFail
  function Failed(c: Client, name: string): Client {
    SetChan(c, name, Chan(Unsubscribed, None))
  }

  // An event has failed: its timer is cleared, or has run out, and its callback is
  // taken away and called with an error.
  function FailEvent(e: Events, id: nat): Events {
    var d := e.(timers := e.timers - {id});
    if id in e.callbacks then d.(callbacks := e.callbacks - {id}, fired := e.fired + [id]) else d
  }

  // An event is answered: its timer is cleared and its callback called, but kept.
  function AnswerEvent(e: Events, id: nat): Events {
    var d := e.(timers := e.timers - {id});
    if id in e.callbacks then d.(fired := e.fired + [id]) else d
  }

  // The callback of a call is called with an error.
  function FailCall(c: Client, owner: Owner): Client {
    match owner
    case Handshake => c
    case Channel(name) => Failed(c, name)
    case User(id) => c.(events := FailEvent(c.events, id))
  }

  // SCTransport._abortAllPendingEventsDueToBadConnection, from call id `k` on.
  function AbortCalls(c: Client, k: nat): (r: Client)
    ensures r == c.(calls := r.calls, channels := r.channels, events := r.events)
    ensures r.events.asked == c.events.asked
    decreases c.cid - k
  {
    if k >= c.cid then c
    else if k in c.calls then AbortCalls(FailCall(c.(calls := c.calls - {k}), c.calls[k]), k + 1)
    else AbortCalls(c, k + 1)
  }

  function Suspended(chan: Chan): Chan {
    Chan(if chan.state == Unsubscribed then Unsubscribed else Pending, None)
  }

  // The calls of the channels' pending subscriptions.
  function PendingCalls(c: Client): set<nat> {
    set name | name in c.channels && c.channels[name].call.Some? :: c.channels[name].call.value
  }

  // _suspendSubscriptions
  function Suspend(c: Client): Client {
    c.(channels := map name | name in c.channels :: Suspended(c.channels[name]), calls := c.calls - PendingCalls(c))
  }

  // SCClientSocket._abortAllPendingEventsDueToBadConnection
  function AbortBuffer(c: Client): (r: Client)
    ensures r == c.(buffer := [], events := r.events) && r.events.asked == c.events.asked
    decreases |c.buffer|
  {
    if c.buffer == [] then c
    else AbortBuffer(c.(buffer := c.buffer[1..], events := FailEvent(c.events, c.buffer[0].id)))
  }

  // SCTransport._onClose: first the client hears of it, then the calls are aborted.
  function OnClose(c: Client): (r: Client)
    ensures r.cid == c.cid && (c.conn == Closed ==> r == c) && r.conn == Closed
    ensures |r.buffer| <= |c.buffer|
  {
    if c.conn == Closed then c
    else AbortCalls(AbortBuffer(Suspend(c.(conn := Closed))), 0)
  }

  // ---- sending -------------------------------------------------------------

  // SCTransport.send: a socket that is no longer open is taken for closed.
  function Send(c: Client, ev: Node.Event): (r: Client)
    ensures r.cid == c.cid && |r.buffer| <= |c.buffer|
  {
    if c.ready then c.(wire := c.wire + [ev]) else OnClose(c)
  }

  // A new call.
  function Register(c: Client, owner: Owner): Client {
    c.(calls := c.calls[c.cid := owner], cid := c.cid + 1, issued := c.issued + [c.cid])
  }

  // A new call for an event of the page, which keeps the call id.
  function RegisterUser(c: Client, id: nat): Client {
    Register(c, User(id)).(events := c.events.(cids := c.events.cids[id := c.cid]))
  }

  // SCTransport.emitObject for an event of the page
  function EmitObject(c: Client, e: Emitted): (r: Client)
    ensures |r.buffer| <= |c.buffer|
  {
    if e.id in c.events.callbacks then Send(RegisterUser(c, e.id), ToEvent(e.what, Some(c.cid)))
    else Send(c, ToEvent(e.what, None))
  }

  // _flushEmitBuffer: each event leaves the buffer before it is emitted.
  function Flush(c: Client): Client
    decreases |c.buffer|
  {
    if c.buffer == [] then c else Flush(EmitObject(c.(buffer := c.buffer[1..]), c.buffer[0]))
  }

  // ---- channels ------------------------------------------------------------

  // _trySubscribe; the call id is stored after the event is sent.
  function TrySubscribe(c: Client, name: string): Client {
    if c.conn == Open && ChanOf(c, name).call.None?
    then
      var d := Send(Register(c, Channel(name)), Node.SubscribeEvent(Some(c.cid), name, false));
      SetChan(d, name, ChanOf(d, name).(call := Some(c.cid)))
    else c
  }

  function Subscribe(c: Client, name: string): Client {
    if ChanOf(c, name).state == Unsubscribed
    then TrySubscribe(SetChan(c, name, ChanOf(c, name).(state := Pending)), name)
    else c
  }

  // _cancelPendingSubscribeCallback
  function CancelCall(c: Client, name: string): Client {
    var chan := ChanOf(c, name);
    if chan.call.None? then c
    else SetChan(c.(calls := c.calls - {chan.call.value}), name, chan.(call := None))
  }

  function Unsubscribe(c: Client, name: string): Client {
    if ChanOf(c, name).state == Unsubscribed then c
    else
      var d := CancelCall(SetChan(c, name, ChanOf(c, name).(state := Unsubscribed)), name);
      if d.conn == Open then Send(d, Node.UnsubscribeEvent(None, name)) else d
  }

  predicate IsPending(c: Client, name: string) { ChanOf(c, name).state == Pending }

  // processPendingSubscriptions; `order` lists the pending channels by priority.
  function ProcessPending(c: Client, order: seq<string>): Client
    decreases |order|
  {
    if order == [] then c else ProcessPending(TrySubscribe(c, order[0]), order[1..])
  }

  // ---- the connection ------------------------------------------------------

  function Connect(c: Client): Client {
    if c.conn == Closed then c.(conn := Connecting, ready := false, calls := map[], wire := []) else c
  }

  // The WebSocket is open: the handshake is sent.
  function SocketOpen(c: Client, auth: Option<Signed>): Client {
    var d := c.(ready := true);
    Send(Register(d, Handshake), Node.Handshake(Some(d.cid), auth))
  }

  // The handshake is answered: _onSCOpen.
  function OnOpen(c: Client, order: seq<string>): Client {
    var d := ProcessPending(c.(conn := Open), order);
    if d.conn == Open then Flush(d) else d
  }

  // An answer to call `rid`.
  function OnAnswer(c: Client, rid: int, ok: bool, order: seq<string>): Client {
    if rid < 0 || rid !in c.calls then c
    else
      var d := c.(calls := c.calls - {rid});
      match c.calls[rid]
      case Handshake => if ok then OnOpen(d, order) else OnClose(d)
      case Channel(name) => SetChan(d, name, Chan(if ok then Subscribed else Unsubscribed, None))
      case User(id) => d.(events := AnswerEvent(d.events, id))
  }

  // ---- events of the page --------------------------------------------------

  // A new event at the end of the buffer; its timer starts to run.
  function Buffer(c: Client, what: UserEvent, callback: bool): Client {
    var e := c.events.(timers := c.events.timers + {c.nextId});
    c.(buffer := c.buffer + [Emitted(c.nextId, what)], nextId := c.nextId + 1,
       events := if callback then e.(callbacks := e.callbacks + {c.nextId}, asked := e.asked + {c.nextId}) else e)
  }

  // _emit
  function Emit(c: Client, what: UserEvent, callback: bool): Client {
    var d := Buffer(Connect(c), what, callback);
    if d.conn == Open then Flush(d) else d
  }

  function Without(buffer: seq<Emitted>, id: nat): seq<Emitted> {
    if buffer == [] then [] else if buffer[0].id == id then buffer[1..] else [buffer[0]] + Without(buffer[1..], id)
  }

  // _handleEventAckTimeout: the event leaves the buffer, fails, and its call is
  // cancelled.
  function AckTimeout(c: Client, id: nat): Client {
    c.(buffer := Without(c.buffer, id), events := FailEvent(c.events, id),
       calls := if id in c.events.cids then c.calls - {c.events.cids[id]} else c.calls)
  }

  // ---- steps ---------------------------------------------------------------

  datatype Step =
    | DoSubscribe(name: string)
    | DoUnsubscribe(name: string)
    | DoEmit(what: UserEvent, callback: bool)
    | DoConnect
    | DoDisconnect
    | Opened(auth: Option<Signed>)
    | Answered(rid: int, ok: bool, order: seq<string>)
    | TokenSet(order: seq<string>)
    | TimedOut(id: nat)
    | Closing
    | ClosedNow

  // A list of the pending channels, each once, in some order.
  ghost predicate ListsPending(c: Client, order: seq<string>) {
    && (forall name :: name in order <==> IsPending(c, name))
    && (forall i, j | 0 <= i < j < |order| :: order[i] != order[j])
  }

  ghost predicate Can(c: Client, step: Step) {
    match step
    case Opened(_) => c.conn == Connecting && !c.ready && c.calls == map[] && c.wire == []
    case Answered(_, _, order) => c.conn != Closed && ListsPending(c, order)
    case TokenSet(order) => c.conn == Open && ListsPending(c, order)
    case TimedOut(id) => id in c.events.timers
    case Closing => c.conn != Closed
    case _ => true
  }

  function After(c: Client, step: Step): Client {
    match step
    case DoSubscribe(name) => Subscribe(c, name)
    case DoUnsubscribe(name) => Unsubscribe(c, name)
    case DoEmit(what, callback) => Emit(c, what, callback)
    case DoConnect => Connect(c)
    case DoDisconnect => if c.conn == Open then OnClose(Send(c, Node.Disconnect)) else OnClose(c)
    case Opened(auth) => SocketOpen(c, auth)
    case Answered(rid, ok, order) => OnAnswer(c, rid, ok, order)
    // #setAuthToken: pending subscriptions are tried, and the event is answered.
    case TokenSet(order) =>
      var d := ProcessPending(c, order);
      if d.conn == Open then Send(d, Node.Unknown(None, "")) else d
    case TimedOut(id) => AckTimeout(c, id)
    case Closing => c.(ready := false)
    case ClosedNow => OnClose(c)
  }
}
