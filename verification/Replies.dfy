// What a socket is answered, packet by packet: to a handshake, an authentication, a
// login and a subscription.
module Replies {
  import opened Prelude
  import opened Auth
  import opened Node
  import opened NodeRuns

  // ---- tokens --------------------------------------------------------------

  // A token is good until it expires; without an expiry it always is.
  predicate IsGood(signed: Signed, now: int) { signed.Genuine? && (signed.payload.exp <= 0 || now < signed.payload.exp) }

  // The error for a token that is not good.
  function Complaint(signed: Signed): string {
    if signed.Genuine? then "AuthTokenExpiredError" else "AuthTokenInvalidError"
  }

  // A handshake is answered with whether the token presented is good, and with what is
  // wrong with it; the socket holds just a good one afterwards.
  lemma HandshakeReply<S>(cfg: Config, s: Sock<S>, cid: int, auth: Option<Signed>, now: int)
    requires !s.closed
    ensures
      var t := HandleHandshake(cfg, s, Some(cid), auth, now); var good := auth.Some? && IsGood(auth.value, now);
      && t.handshaken && t.authed == good && t.subs == s.subs
      && t.token == (if good then Some(auth.value.payload.(chanelNameChat := "")) else None)
      && t.offered == s.offered +
           [Response(cid, Status(good, if auth.None? || good then None else Some(Complaint(auth.value))))]
  {
  }

  // An authentication in the same way; without a token it changes nothing.
  lemma AuthenticateReply<S>(cfg: Config, s: Sock<S>, cid: int, signed: Option<Signed>, now: int)
    requires !s.closed
    ensures
      var t := HandleAuthenticate(cfg, s, Some(cid), signed, now);
      if signed.None?
      then t.token == s.token && t.authed == s.authed && t.offered == s.offered + [Response(cid, Status(s.authed, None))]
      else
        var good := IsGood(signed.value, now);
        && t.authed == good && t.token == (if good then Some(signed.value.payload.(chanelNameChat := "")) else None)
        && t.offered == s.offered + [Response(cid, Status(good, if good then None else Some(Complaint(signed.value))))]
  {
  }

  // ---- login ---------------------------------------------------------------

  // The hash that a request carries, in either of its two forms.
  ghost predicate Asks(r: LoginRequest, hash: string, instanceID: int) {
    r.LoginRequest? &&
    match r.hash
    case Text(h) => h == hash && instanceID == (if r.instanceID.Some? then r.instanceID.value else 0)
    case Nested(h, i) => h == hash && instanceID == (if i.Some? then i.value else 0)
    case _ => false
  }

  // The token that a minted hash buys: two hours for a visitor, twelve for an operator.
  function Bought(m: Mint, hash: string, chanelName: string, instanceID: int, now: int): Token {
    Token(hash, now + (if m.Operator? then 43200 else 7200), now, chanelName, instanceID,
          Contains(chanelName, "chat_"), !m.Operator?, "")
  }

  // A login with a minted hash sets its token, is answered, and is sent the token signed,
  // under the next call id of the socket. With a hash minted for something else it fails.
  lemma LoginReply<S>(cfg: Config, s: Sock<S>, cid: int, r: LoginRequest, now: int, m: Mint, hash: string, instanceID: int)
    requires IdealHash(cfg.sha) && now > 0 && Asks(r, hash, instanceID)
    requires IsHashOf(cfg.sha, cfg.secretHash, m, hash) && IsFresh(m.date, now)
    requires !s.closed && |s.queue| < cfg.sendBuffer
    ensures
      var t := HandleLogin(cfg, s, Some(cid), r, now); var token := Bought(m, hash, r.chanelName, instanceID, now);
      if IsFor(m, r.chanelName)
      then t.token == Some(token) && t.authed && t.callID == s.callID + 1
           && t.offered == s.offered + [Response(cid, Empty), SetAuthToken(Genuine(token), s.callID + 1)]
      else t.token == s.token && t.authed == s.authed && t.offered == s.offered + [ErrorResponse(cid, "LoginFailedError")]
  {
    hide IdealHash, IsHashOf, Enqueue;
    LoginBuys(cfg, r, now, m, hash, instanceID);
    var t := HandleLogin(cfg, s, Some(cid), r, now);
    hide LoginResult, Asks, Bought, IsFor;
    if IsFor(m, r.chanelName) {
      var token := Bought(m, hash, r.chanelName, instanceID, now);
      var a := Reply(cfg, s, Some(cid), Empty);
      EnqueueShows(cfg, s, Response(cid, Empty));
      EnqueueShows(cfg, SetToken(a, Some(token)).(callID := a.callID + 1), SetAuthToken(Genuine(token), a.callID + 1));
      assert s.offered + [Response(cid, Empty)] + [SetAuthToken(Genuine(token), s.callID + 1)]
          == s.offered + [Response(cid, Empty), SetAuthToken(Genuine(token), s.callID + 1)];
    } else {
      EnqueueShows(cfg, s, ErrorResponse(cid, "LoginFailedError"));
    }
  }

  lemma EnqueueShows<S>(cfg: Config, s: Sock<S>, p: Packet<S>)
    requires !s.closed
    ensures
      var t := Enqueue(cfg, s, p);
      && t.offered == s.offered + [p] && t.closed == (|s.queue| >= cfg.sendBuffer)
      && t == s.(offered := t.offered, closed := t.closed, queue := t.queue)
  {
  }

  lemma LoginBuys(cfg: Config, r: LoginRequest, now: int, m: Mint, hash: string, instanceID: int)
    requires IdealHash(cfg.sha) && now > 0 && Asks(r, hash, instanceID)
    requires IsHashOf(cfg.sha, cfg.secretHash, m, hash) && IsFresh(m.date, now)
    ensures
      var token := Bought(m, hash, r.chanelName, instanceID, now);
      LoginResult(cfg, r, now) == if IsFor(m, r.chanelName) then Some((token, Genuine(token))) else None
  {
    hide Contains, IsHashOf, IsFresh, IdealHash, ValidateLogin, IsFor;
    MintedValidates(cfg.sha, hash, r.chanelName, cfg.secretHash, now, m);
  }

  // A request that carries no hash logs nobody in.
  lemma NoHashFails(cfg: Config, r: LoginRequest, now: int)
    requires r.Malformed? || r.hash.NoHash? || r.hash.OtherKind?
    ensures LoginResult(cfg, r, now) == None
  {
    assert Split("", '.') == [""];
    hide Split;
  }

  // ---- subscriptions -------------------------------------------------------

  // Whether a subscription is let in, with every reason why not: operators get any
  // channel, visitors any that is no chat, and a chat only with the token of a chat - under
  // strict binding, of that chat.
  lemma VerdictExactly<S>(cfg: Config, s: Sock<S>, channel: string)
    ensures
      var v := SubscribeVerdict(cfg, s, channel);
      var mayHear := s.token.Some? &&
        (var t := s.token.value;
         !t.isVisitor || !Contains(channel, "chat_") || (t.isChatToken && (cfg.strictChannelBinding ==> t.chanelName == channel)));
      var hasRoom := channel in s.subs || |s.subs| < cfg.channelLimit;
      && (v.Accepted? <==> channel != "" && s.handshaken && mayHear && hasRoom)
      && (v.Accepted? ==> s.token == Some(v.token))
      && (v.Refused? ==> v.error == if channel != "" && s.handshaken && !mayHear then "UnauthorizedError" else "InvalidActionError")
  {
    hide Contains;
  }

  // A refused subscription is answered with the reason, and that is all.
  lemma RefusedReply<S>(cfg: Config, n: Node<S>, s: S, cid: int, channel: string, batch: bool)
    requires s in n.socks && !n.socks[s].closed && SubscribeVerdict(cfg, n.socks[s], channel).Refused?
    ensures
      var m := HandleSubscribe(cfg, n, s, Some(cid), channel, batch);
      && m == Put(n, s, m.socks[s]) && m.socks[s].subs == n.socks[s].subs && m.socks[s].token == n.socks[s].token
      && m.socks[s].offered == n.socks[s].offered + [ErrorResponse(cid, SubscribeVerdict(cfg, n.socks[s], channel).error)]
  {
    hide SubscribeVerdict;
  }

  // An accepted one is noted and answered last; a chat is remembered in a visitor's token.
  lemma AcceptedReply<S>(cfg: Config, n: Node<S>, s: S, cid: int, channel: string, batch: bool)
    requires s in n.socks && SubscribeVerdict(cfg, n.socks[s], channel).Accepted?
    requires s in HandleSubscribe(cfg, n, s, Some(cid), channel, batch).socks
    requires !HandleSubscribe(cfg, n, s, Some(cid), channel, batch).socks[s].closed
    ensures
      var t := HandleSubscribe(cfg, n, s, Some(cid), channel, batch).socks[s]; var token := n.socks[s].token;
      && token.Some? && t.subs == n.socks[s].subs + {channel}
      && t.token == Some(if token.value.isVisitor && Contains(channel, "chat_") then token.value.(chanelNameChat := channel) else token.value)
      && t.offered != [] && t.offered[|t.offered| - 1] == Response(cid, if batch then Batch else Empty)
  {
    VerdictExactly(cfg, n.socks[s], channel);
    var token := n.socks[s].token.value;
    hide SubscribeVerdict, Admit, Contains, Reply;
    Admitted(cfg, n, s, token, channel);
    var m := Admit(cfg, n, s, token, channel);
    LastReply(cfg, m.socks[s], cid, if batch then Batch else Empty);
  }

  lemma LastReply<S>(cfg: Config, s: Sock<S>, cid: int, body: Body)
    requires !Reply(cfg, s, Some(cid), body).closed
    ensures
      var t := Reply(cfg, s, Some(cid), body);
      t.subs == s.subs && t.token == s.token && t.offered != [] && t.offered[|t.offered| - 1] == Response(cid, body)
  {
  }

  lemma Admitted<S>(cfg: Config, n: Node<S>, s: S, token: Token, channel: string)
    requires s in n.socks && n.socks[s].token == Some(token)
    ensures
      var m := Admit(cfg, n, s, token, channel);
      && s in m.socks && m.socks[s].subs == n.socks[s].subs + {channel}
      && m.socks[s].token == Some(if token.isVisitor && Contains(channel, "chat_") then token.(chanelNameChat := channel) else token)
  {
    hide Announce, HubAdd, OnlineEvent, Contains, Announced, NodeFeeds;
    var a := Put(n, s, Subscribed(n.socks[s], token, channel));
    var b := Announce(cfg, a, s, OnlineEvent(cfg, token, channel));
    AnnounceFeeds(cfg, a, s, OnlineEvent(cfg, token, channel));
    AnnouncedOwn(a, b, s, OnlineEvent(cfg, token, channel));
    HubAddKeepsSocks(b, s, channel);
  }

  lemma AnnouncedOwn<S>(n: Node<S>, m: Node<S>, s: S, p: Option<Presence>)
    requires s in n.socks && Announced(n, m, s, p)
    ensures s in m.socks && m.socks[s].subs == n.socks[s].subs && m.socks[s].token == n.socks[s].token
  {
  }
}
