// The answers among the packets of a socket: what the server says to the calls of
// its client, and in which order.
module Answers {
  import opened Prelude
  import opened Auth
  import opened Node
  import opened NodeRuns

  datatype Answer = Answer(rid: int, ok: bool)

  function AnswersOf<S>(ps: seq<Packet<S>>): seq<Answer> {
    if ps == [] then []
    else
      var front := AnswersOf(ps[..|ps| - 1]);
      var last := ps[|ps| - 1];
      if last.Response? then front + [Answer(last.rid, true)]
      else if last.ErrorResponse? then front + [Answer(last.rid, false)]
      else front
  }

  lemma OneMore<S>(ps: seq<Packet<S>>, p: Packet<S>)
    ensures AnswersOf(ps + [p]) == AnswersOf(ps) + AnswersOf([p])
  {
    assert (ps + [p])[..|ps|] == ps;
    assert [p][..0] == [];
  }

  lemma {:induction false} AnswersJoin<S>(a: seq<Packet<S>>, b: seq<Packet<S>>)
    ensures AnswersOf(a + b) == AnswersOf(a) + AnswersOf(b)
  {
    if b == [] {
      assert a + b == a;
    } else {
      var front := b[..|b| - 1];
      assert a + b == (a + front) + [b[|b| - 1]] && b == front + [b[|b| - 1]];
      AnswersJoin(a, front);
      OneMore(a + front, b[|b| - 1]);
      OneMore(front, b[|b| - 1]);
    }
  }

  // `t` is `s` after `x` was said, unless the socket is closed.
  ghost predicate Says<S>(s: Sock<S>, t: Sock<S>, x: seq<Answer>) {
    && (s.closed ==> t.closed)
    && s.offered <= t.offered
    && (AnswersOf(t.offered) == AnswersOf(s.offered) + x || (t.closed && AnswersOf(t.offered) == AnswersOf(s.offered)))
  }

  lemma SaysThen<S>(a: Sock<S>, b: Sock<S>, c: Sock<S>, x: seq<Answer>)
    requires (Says(a, b, []) && Says(b, c, x)) || (Says(a, b, x) && Says(b, c, []))
    ensures Says(a, c, x)
  {
    hide AnswersOf;
    assert AnswersOf(a.offered) + [] == AnswersOf(a.offered);
    assert AnswersOf(b.offered) + [] == AnswersOf(b.offered);
  }

  lemma SaysNothing<S>(s: Sock<S>, t: Sock<S>)
    requires t.offered == s.offered && (s.closed ==> t.closed)
    ensures Says(s, t, [])
  {
    hide AnswersOf;
    assert AnswersOf(s.offered) + [] == AnswersOf(s.offered);
  }

  lemma EnqueueSays<S>(cfg: Config, s: Sock<S>, p: Packet<S>)
    ensures Says(s, Enqueue(cfg, s, p), AnswersOf([p]))
  {
    OneMore(s.offered, p);
    hide AnswersOf;
  }

  lemma Silent<S>(p: Packet<S>)
    requires !p.Response? && !p.ErrorResponse?
    ensures AnswersOf([p]) == []
  {
    assert [p][..0] == [];
  }

  function ToCid(cid: Option<int>, ok: bool): seq<Answer> { if cid.Some? then [Answer(cid.value, ok)] else [] }

  lemma ReplySays<S>(cfg: Config, s: Sock<S>, cid: Option<int>, body: Body)
    ensures Says(s, Reply(cfg, s, cid, body), ToCid(cid, true))
  {
    if cid.Some? {
      var p: Packet<S> := Response(cid.value, body);
      assert [p][..0] == [];
      EnqueueSays(cfg, s, p);
    } else {
      SaysNothing(s, s);
    }
  }

  lemma RefuseSays<S>(cfg: Config, s: Sock<S>, cid: Option<int>, name: string)
    ensures Says(s, Refuse(cfg, s, cid, name), ToCid(cid, false))
  {
    if cid.Some? {
      var p: Packet<S> := ErrorResponse(cid.value, name);
      assert [p][..0] == [];
      EnqueueSays(cfg, s, p);
    } else {
      SaysNothing(s, s);
    }
  }

  // The answer to an event.
  function AnswerTo<S>(cfg: Config, s: Sock<S>, ev: Event, now: int): seq<Answer> {
    match ev
    case Handshake(cid, _) => ToCid(cid, true)
    case LoginEvent(cid, request) => ToCid(cid, LoginResult(cfg, request, now).Some?)
    case Authenticate(cid, _) => ToCid(cid, true)
    case RemoveAuthToken(cid) => ToCid(cid, true)
    case SubscribeEvent(cid, channel, _) => ToCid(cid, SubscribeVerdict(cfg, s, channel).Accepted?)
    case UnsubscribeEvent(cid, channel) => if channel == "" then [] else ToCid(cid, true)
    case PublishEvent(cid, _, _) => ToCid(cid, true)
    case Disconnect => []
    case Unknown(cid, _) => ToCid(cid, false)
  }

  lemma LoginSays<S>(cfg: Config, s: Sock<S>, cid: Option<int>, r: LoginRequest, now: int)
    ensures Says(s, HandleLogin(cfg, s, cid, r, now), ToCid(cid, LoginResult(cfg, r, now).Some?))
  {
    hide LoginResult, Reply, Refuse, Says;
    match LoginResult(cfg, r, now)
    case None => RefuseSays(cfg, s, cid, "LoginFailedError");
    case Some((token, signed)) =>
      var t := Reply(cfg, s, cid, Empty);
      var u := SetToken(t, Some(token)).(callID := t.callID + 1);
      ReplySays(cfg, s, cid, Empty);
      SaysNothing(t, u);
      SaysThen(s, t, u, ToCid(cid, true));
      Silent<S>(SetAuthToken(signed, u.callID));
      EnqueueSays(cfg, u, SetAuthToken(signed, u.callID));
      SaysThen(s, u, HandleLogin(cfg, s, cid, r, now), ToCid(cid, true));
  }

  lemma AloneSays<S>(cfg: Config, s: Sock<S>, ev: Event, now: int)
    requires !ev.SubscribeEvent? && !ev.UnsubscribeEvent? && !ev.PublishEvent?
    ensures Says(s, HandleAlone(cfg, s, ev, now), AnswerTo(cfg, s, ev, now))
  {
    hide LoginResult, Reply, Refuse, Says, HandleLogin, VerifyToken;
    match ev
    case Handshake(cid, auth) =>
      var v := if auth.Some? then VerifyToken(auth.value, now) else Invalid;
      var t := AfterVerify(s, v).(handshaken := true);
      var body := Status(t.authed, if auth.Some? && !v.Valid? then Some(ErrorName(v)) else None);
      SaysNothing(s, t);
      ReplySays(cfg, t, cid, body);
      SaysThen(s, t, Reply(cfg, t, cid, body), ToCid(cid, true));
    case LoginEvent(cid, request) => LoginSays(cfg, s, cid, request, now);
    case Authenticate(cid, signed) =>
      if signed.None? {
        ReplySays(cfg, s, cid, Status(s.authed, None));
      } else {
        var v := VerifyToken(signed.value, now);
        var t := AfterVerify(s, v);
        var body := Status(t.authed, if v.Valid? then None else Some(ErrorName(v)));
        SaysNothing(s, t);
        ReplySays(cfg, t, cid, body);
        SaysThen(s, t, Reply(cfg, t, cid, body), ToCid(cid, true));
      }
    case RemoveAuthToken(cid) =>
      var t := SetToken(s, None);
      SaysNothing(s, t);
      ReplySays(cfg, t, cid, Empty);
      SaysThen(s, t, Reply(cfg, t, cid, Empty), ToCid(cid, true));
    case Disconnect => SaysNothing(s, CloseWith(s));
    case Unknown(cid, _) => RefuseSays(cfg, s, cid, "UnknownEventError");
  }

  // ---- publications answer nothing -----------------------------------------

  lemma PublishLocalSays<S>(cfg: Config, n: Node<S>, channel: string, data: string, pub: PubId<S>, r: S)
    requires r in n.socks
    ensures Says(n.socks[r], PublishLocal(cfg, n, channel, data, pub).socks[r], [])
  {
    var packet := EncodePublish(cfg, channel, data, pub);
    var m := PublishLocal(cfg, n, channel, data, pub);
    hide Says, AnswersOf, Enqueue;
    if packet.Some? && r in Subscribers(n, channel) {
      Silent<S>(packet.value);
      EnqueueSays(cfg, n.socks[r], packet.value);
    } else {
      SaysNothing(n.socks[r], m.socks[r]);
    }
  }

  lemma AnnounceSays<S>(cfg: Config, n: Node<S>, s: S, p: Option<Presence>, r: S)
    requires s in n.socks && r in n.socks
    ensures Says(n.socks[r], Announce(cfg, n, s, p).socks[r], [])
  {
    hide Says, PresenceText, PublishLocal;
    if p.Some? {
      var a := Put(n, s, n.socks[s].(announced := n.socks[s].announced + [p.value]));
      SaysNothing(n.socks[r], a.socks[r]);
      PublishLocalSays(cfg, a, p.value.channel, PresenceText(cfg, p.value), PubOf(cfg, a, s), r);
      SaysThen(n.socks[r], a.socks[r], Announce(cfg, n, s, p).socks[r], []);
    } else {
      SaysNothing(n.socks[r], n.socks[r]);
    }
  }

  // What a reply to `s` says to `r`.
  lemma PutReplySays<S>(cfg: Config, n: Node<S>, s: S, cid: Option<int>, body: Body, r: S)
    requires s in n.socks && r in n.socks
    ensures Says(n.socks[r], Put(n, s, Reply(cfg, n.socks[s], cid, body)).socks[r], if r == s then ToCid(cid, true) else [])
  {
    hide Says, Reply;
    if r == s { ReplySays(cfg, n.socks[s], cid, body); } else { SaysNothing(n.socks[r], n.socks[r]); }
  }

  lemma SubscribeSays<S>(cfg: Config, n: Node<S>, s: S, cid: Option<int>, channel: string, batch: bool, now: int, r: S)
    requires s in n.socks && r in n.socks
    ensures r in HandleSubscribe(cfg, n, s, cid, channel, batch).socks
    ensures Says(n.socks[r], HandleSubscribe(cfg, n, s, cid, channel, batch).socks[r],
                 if r == s then AnswerTo(cfg, n.socks[s], SubscribeEvent(cid, channel, batch), now) else [])
  {
    hide Says, Announce, HubAdd, OnlineEvent, SubscribeVerdict, Reply, Subscribed, Refuse, LoginResult;
    var v := SubscribeVerdict(cfg, n.socks[s], channel);
    if v.Refused? {
      RefuseSays(cfg, n.socks[s], cid, v.error);
      SaysNothing(n.socks[r], n.socks[r]);
    } else {
      var p := OnlineEvent(cfg, v.token, channel);
      var a := Put(n, s, Subscribed(n.socks[s], v.token, channel));
      SubscribedSays(n.socks[s], v.token, channel);
      SaysNothing(n.socks[r], n.socks[r]);
      AnnounceSays(cfg, a, s, p, r);
      HubAddKeepsSocks(Announce(cfg, a, s, p), s, channel);
      var m := Admit(cfg, n, s, v.token, channel);
      SaysThen(n.socks[r], a.socks[r], m.socks[r], []);
      var body := if batch then Batch else Empty;
      PutReplySays(cfg, m, s, cid, body, r);
      SaysThen(n.socks[r], m.socks[r], Put(m, s, Reply(cfg, m.socks[s], cid, body)).socks[r], if r == s then ToCid(cid, true) else []);
    }
  }

  lemma SubscribedSays<S>(s: Sock<S>, token: Token, channel: string)
    ensures Says(s, Subscribed(s, token, channel), [])
  {
    SaysNothing(s, Subscribed(s, token, channel));
  }

  lemma UnsubscribeSays<S>(cfg: Config, n: Node<S>, s: S, cid: Option<int>, channel: string, now: int, r: S)
    requires s in n.socks && r in n.socks
    ensures r in HandleUnsubscribe(cfg, n, s, cid, channel).socks
    ensures Says(n.socks[r], HandleUnsubscribe(cfg, n, s, cid, channel).socks[r],
                 if r == s then AnswerTo(cfg, n.socks[s], UnsubscribeEvent(cid, channel), now) else [])
  {
    hide Says, HubRemove, Reply, LoginResult, SubscribeVerdict;
    SaysNothing(n.socks[r], n.socks[r]);
    if channel != "" {
      var b := Put(n, s, n.socks[s].(subs := n.socks[s].subs - {channel}));
      var a := if channel in n.socks[s].subs then HubRemove(b, s, channel) else n;
      RemoveKeepsSocks(b, s, channel);
      assert a.socks.Keys == n.socks.Keys;
      SaysNothing(n.socks[r], a.socks[r]);
      PutReplySays(cfg, a, s, cid, Empty, r);
      SaysThen(n.socks[r], a.socks[r], Put(a, s, Reply(cfg, a.socks[s], cid, Empty)).socks[r], if r == s then ToCid(cid, true) else []);
    }
  }

  lemma PublishSays<S>(cfg: Config, n: Node<S>, s: S, cid: Option<int>, channel: string, data: string, now: int, r: S)
    requires s in n.socks && r in n.socks
    ensures r in HandlePublish(cfg, n, s, cid, channel, data).socks
    ensures Says(n.socks[r], HandlePublish(cfg, n, s, cid, channel, data).socks[r],
                 if r == s then AnswerTo(cfg, n.socks[s], PublishEvent(cid, channel, data), now) else [])
  {
    hide Says, PublishLocal, Reply, LoginResult, SubscribeVerdict;
    var a := Put(n, s, Reply(cfg, n.socks[s], cid, Empty));
    PutReplySays(cfg, n, s, cid, Empty, r);
    PublishLocalSays(cfg, a, channel, data, PubOf(cfg, a, s), r);
    SaysThen(n.socks[r], a.socks[r], PublishLocal(cfg, a, channel, data, PubOf(cfg, a, s)).socks[r], if r == s then ToCid(cid, true) else []);
  }

  lemma LeaveSays<S>(cfg: Config, n: Node<S>, s: S, channels: seq<string>, r: S)
    requires s in n.socks && r in n.socks
    ensures r in Cleanup(cfg, n, s, channels).socks
    ensures Says(n.socks[r], Cleanup(cfg, n, s, channels).socks[r], [])
  {
    hide Says, Announce, RemoveAll, OfflineEvent;
    var p := OfflineEvent(cfg, n.socks[s].token);
    var a := Put(n, s, n.socks[s].(subs := {})).(registered := n.registered - {s});
    var b := RemoveAll(a, s, channels);
    SaysNothing(n.socks[r], b.socks[r]);
    AnnounceSays(cfg, b, s, p, r);
    var c := Announce(cfg, b, s, p);
    SaysThen(n.socks[r], b.socks[r], c.socks[r], []);
    SaysNothing(c.socks[r], Cleanup(cfg, n, s, channels).socks[r]);
    SaysThen(n.socks[r], c.socks[r], Cleanup(cfg, n, s, channels).socks[r], []);
  }

  // A step answers its event, and says nothing else to anybody.
  lemma StepSays<S>(cfg: Config, n: Node<S>, step: Step<S>, r: S)
    requires Enabled(n, step) && r in n.socks
    ensures r in Next(cfg, n, step).socks
    ensures Says(n.socks[r], Next(cfg, n, step).socks[r],
                 if step.Receive? && step.s == r then AnswerTo(cfg, n.socks[r], step.ev, step.now) else [])
  {
    hide Says, AnswersOf, HandleSubscribe, HandleUnsubscribe, HandlePublish, HandleAlone, Cleanup, PublishLocal, Enqueue, AnswerTo;
    SaysNothing(n.socks[r], n.socks[r]);
    match step
    case Receive(s, ev, now) =>
      match ev {
        case SubscribeEvent(cid, channel, batch) => SubscribeSays(cfg, n, s, cid, channel, batch, now, r);
        case UnsubscribeEvent(cid, channel) => UnsubscribeSays(cfg, n, s, cid, channel, now, r);
        case PublishEvent(cid, channel, data) => PublishSays(cfg, n, s, cid, channel, data, now, r);
        case _ => AloneSays(cfg, n.socks[s], ev, now);
      }
    case Leave(s, channels) => LeaveSays(cfg, n, s, channels, r);
    case Deliver(channel, data, pub) => PublishLocalSays(cfg, n, channel, data, pub, r);
    case ReceivePing(s) =>
      Silent<S>(Pong);
      EnqueueSays(cfg, n.socks[s], Pong);
    case Tick(s) =>
      Silent<S>(Ping);
      EnqueueSays(cfg, n.socks[s], Ping);
    case Close(s) => SaysNothing(n.socks[s], CloseWith(n.socks[s]));
    case Write(s) => SaysNothing(n.socks[s], Written(n.socks[s]));
    case WriteFails(s) => SaysNothing(n.socks[s], Lost(n.socks[s]));
    case Connect(s) =>
  }
}
