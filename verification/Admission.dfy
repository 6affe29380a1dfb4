// Who may hold which channel, over whole runs of the servers: every channel held was
// let in under a token held at that moment, and every token goes back to a hash that
// PHP minted.
module Admission {
  import opened Prelude
  import opened Auth
  import opened Node
  import NodeRuns
  import opened SocketRuns

  // ---- tokens --------------------------------------------------------------

  // The hash that a token was bought with.
  function MintOf(t: Token): Mint
    requires |Split(t.token, '.')| >= 2
  {
    var ts := Split(t.token, '.')[1];
    if !t.isVisitor then Operator(ts)
    else if t.isChatToken then ChatVisitor(ts, LastTokenPart(t.chanelName))
    else SiteVisitor(ts)
  }

  // The token is what its minted hash stands for.
  ghost predicate Proven(minted: set<Mint>, t: Token) {
    && |Split(t.token, '.')| >= 2
    && t.isChatToken == Contains(t.chanelName, "chat_")
    && MintOf(t) in minted
  }

  // The signed token of a login is good for two hours, that of an operator for twelve,
  // and reads back as the token set.
  lemma LoginLasts(cfg: Config, r: LoginRequest, now: int, later: int)
    requires LoginResult(cfg, r, now).Some? && now > 0
    ensures
      var (token, signed) := LoginResult(cfg, r, now).value;
      VerifyToken(signed, later) == if later < now + (if token.isVisitor then 7200 else 43200) then Valid(token) else Expired
  {
    hide ValidateLogin, LoginHash;
  }

  // The servers share the key that signs: a signed token that verifies was issued by
  // one of them. `issued` is all that they issued.
  datatype Fleet<S> = Fleet(nodes: map<string, Node<S>>, issued: set<Token>)

  function Presented(ev: Event): Option<Signed> {
    match ev
    case Handshake(_, auth) => auth
    case Authenticate(_, signed) => signed
    case _ => None
  }

  function IssuedBy(cfg: Config, ev: Event, now: int): set<Token> {
    if ev.LoginEvent? && LoginResult(cfg, ev.request, now).Some?
    then (match LoginResult(cfg, ev.request, now).value.1 case Genuine(t) => {t} case Forged(_) => {})
    else {}
  }

  // The ideal hash and the ideal MAC: whatever a client sends, a genuine signature is
  // one that was issued, and a hash made with the secret is one that was minted.
  ghost predicate Ideal(cfg: Config, minted: set<Mint>, issued: set<Token>, ev: Event) {
    && (Presented(ev).Some? && Presented(ev).value.Genuine? ==> Presented(ev).value.payload in issued)
    && (ev.LoginEvent? && ev.request.LoginRequest? ==>
          Unforgeable(cfg.sha, cfg.secretHash, minted, Split(LoginHash(ev.request).0, '.')[0]))
  }

  ghost predicate Can<S>(cfgs: map<string, Config>, minted: set<Mint>, f: Fleet<S>, k: string, step: Step<S>) {
    && k in f.nodes && k in cfgs && Enabled(f.nodes[k], step)
    && (step.Receive? ==> Ideal(cfgs[k], minted, f.issued, step.ev))
  }

  ghost function After<S>(cfgs: map<string, Config>, f: Fleet<S>, k: string, step: Step<S>): Fleet<S>
    requires k in f.nodes && k in cfgs && Enabled(f.nodes[k], step)
  {
    Fleet(f.nodes[k := Next(cfgs[k], f.nodes[k], step)],
          f.issued + if step.Receive? then IssuedBy(cfgs[k], step.ev, step.now) else {})
  }

  // ---- the invariant -------------------------------------------------------

  ghost predicate HoldsProven<S>(minted: set<Mint>, s: Sock<S>) {
    s.token.Some? ==> Proven(minted, s.token.value)
  }

  ghost predicate Sound<S>(minted: set<Mint>, f: Fleet<S>) {
    && (forall t | t in f.issued :: Proven(minted, t))
    && (forall k, s | k in f.nodes && s in f.nodes[k].socks :: HoldsProven(minted, f.nodes[k].socks[s]))
  }

  lemma LoginProven(cfg: Config, minted: set<Mint>, r: LoginRequest, now: int)
    requires LoginResult(cfg, r, now).Some?
    requires Unforgeable(cfg.sha, cfg.secretHash, minted, Split(LoginHash(r).0, '.')[0])
    ensures Proven(minted, LoginResult(cfg, r, now).value.0)
    ensures LoginResult(cfg, r, now).value.1.Genuine? && Proven(minted, LoginResult(cfg, r, now).value.1.payload)
  {
    var hash := LoginHash(r).0;
    hide Unforgeable, Contains;
    ValidLoginWasMinted(cfg.sha, hash, r.chanelName, cfg.secretHash, now, minted);
  }

  // Only the token of the socket that an event comes from may change, and then to
  // one that was issued or minted.
  lemma EventSound<S>(cfg: Config, minted: set<Mint>, issued: set<Token>, s: Sock<S>, ev: Event, now: int)
    requires HoldsProven(minted, s) && Ideal(cfg, minted, issued, ev)
    requires forall t | t in issued :: Proven(minted, t)
    ensures HoldsProven(minted, OwnEvent(cfg, s, ev, now))
    ensures forall t | t in IssuedBy(cfg, ev, now) :: Proven(minted, t)
  {
    hide Proven, Unforgeable, Contains, OnlineEvent;
    if ev.LoginEvent? {
      if LoginResult(cfg, ev.request, now).Some? { LoginProven(cfg, minted, ev.request, now); }
      LoginSound(cfg, minted, s, ev.cid, ev.request, now);
    } else if ev.SubscribeEvent? {
      SubscribeSound(cfg, minted, s, ev.channel);
    } else {
      AloneSound(cfg, minted, issued, s, ev, now);
    }
  }

  lemma SameProven(minted: set<Mint>, t: Token, u: Token)
    requires Proven(minted, t) && u == t.(exp := u.exp, iat := u.iat, chanelNameChat := u.chanelNameChat)
    ensures Proven(minted, u)
  {
  }

  lemma SubscribeSound<S>(cfg: Config, minted: set<Mint>, s: Sock<S>, channel: string)
    requires HoldsProven(minted, s)
    ensures
      var v := SubscribeVerdict(cfg, s, channel);
      v.Accepted? ==> HoldsProven(minted, WithPresence(Subscribed(s, v.token, channel), OnlineEvent(cfg, v.token, channel)))
  {
    hide Proven, OnlineEvent, IsChatChannel;
    var v := SubscribeVerdict(cfg, s, channel);
    if v.Accepted? { SameProven(minted, v.token, v.token.(chanelNameChat := channel)); }
  }

  lemma LoginSound<S>(cfg: Config, minted: set<Mint>, s: Sock<S>, cid: Option<int>, r: LoginRequest, now: int)
    requires HoldsProven(minted, s)
    requires LoginResult(cfg, r, now).Some? ==> Proven(minted, LoginResult(cfg, r, now).value.0)
    ensures HoldsProven(minted, HandleLogin(cfg, s, cid, r, now))
  {
    hide Proven, LoginResult;
  }

  lemma VerifiedSound(minted: set<Mint>, issued: set<Token>, signed: Signed, now: int)
    requires signed.Genuine? ==> signed.payload in issued
    requires forall t | t in issued :: Proven(minted, t)
    ensures VerifyToken(signed, now).Valid? ==> Proven(minted, VerifyToken(signed, now).token)
  {
    hide Proven;
    if signed.Genuine? { SameProven(minted, signed.payload, signed.payload.(chanelNameChat := "")); }
  }

  lemma AloneSound<S>(cfg: Config, minted: set<Mint>, issued: set<Token>, s: Sock<S>, ev: Event, now: int)
    requires !ev.LoginEvent? && !ev.SubscribeEvent?
    requires HoldsProven(minted, s) && Ideal(cfg, minted, issued, ev)
    requires forall t | t in issued :: Proven(minted, t)
    ensures HoldsProven(minted, OwnEvent(cfg, s, ev, now))
  {
    hide Proven, VerifyToken, HandleLogin, OnlineEvent;
    if Presented(ev).Some? { VerifiedSound(minted, issued, Presented(ev).value, now); }
  }

  lemma StepSound<S>(cfgs: map<string, Config>, minted: set<Mint>, f: Fleet<S>, k: string, step: Step<S>)
    requires Sound(minted, f) && Can(cfgs, minted, f, k, step)
    ensures Sound(minted, After(cfgs, f, k, step))
  {
    var after := After(cfgs, f, k, step);
    var n, m := f.nodes[k], after.nodes[k];
    hide Proven, OwnEvent, Ideal, IssuedBy, Enabled, Next;
    if step.Receive? {
      ReceiverIsThere(n, step);
      assert HoldsProven(minted, n.socks[step.s]);
      EventSound(cfgs[k], minted, f.issued, n.socks[step.s], step.ev, step.now);
    }
    forall s | s in m.socks ensures HoldsProven(minted, m.socks[s]) {
      if s in n.socks {
        OwnStep(cfgs[k], n, step, s);
        assert HoldsProven(minted, n.socks[s]);
      } else {
        NewcomerIsBare(cfgs[k], n, step, s);
      }
    }
  }

  lemma ReceiverIsThere<S>(n: Node<S>, step: Step<S>)
    requires Enabled(n, step) && step.Receive?
    ensures step.s in n.socks
  {
  }

  lemma NewcomerIsBare<S>(cfg: Config, n: Node<S>, step: Step<S>, s: S)
    requires Enabled(n, step) && s in Next(cfg, n, step).socks && s !in n.socks
    ensures Next(cfg, n, step).socks[s] == NewSock() && step == Connect(s)
  {
  }

  // ---- runs ----------------------------------------------------------------

  datatype Move<S> = Move(k: string, step: Step<S>)

  ghost predicate IsRun<S>(cfgs: map<string, Config>, minted: set<Mint>, states: seq<Fleet<S>>, moves: seq<Move<S>>) {
    && |states| == |moves| + 1
    && (forall k | k in states[0].nodes :: states[0].nodes[k] == NewNode()) && states[0].issued == {}
    && forall i | 0 <= i < |moves| :: IsMove(cfgs, minted, states[i], moves[i], states[i + 1])
  }

  ghost predicate IsMove<S>(cfgs: map<string, Config>, minted: set<Mint>, f: Fleet<S>, move: Move<S>, after: Fleet<S>) {
    Can(cfgs, minted, f, move.k, move.step) && after == After(cfgs, f, move.k, move.step)
  }

  // At every moment every token, issued or held, is what a minted hash stands for.
  lemma {:induction false} SoundAt<S>(cfgs: map<string, Config>, minted: set<Mint>, states: seq<Fleet<S>>, moves: seq<Move<S>>, i: nat)
    requires IsRun(cfgs, minted, states, moves) && i < |states|
    ensures Sound(minted, states[i])
  {
    if i > 0 {
      SoundAt(cfgs, minted, states, moves, i - 1);
      assert IsMove(cfgs, minted, states[i - 1], moves[i - 1], states[i]);
      hide IsRun, Can, After, Sound;
      StepSoundAlso(cfgs, minted, states[i - 1], moves[i - 1], states[i]);
    } else {
      hide Proven;
      assert Sound(minted, states[0]);
    }
  }

  lemma StepSoundAlso<S>(cfgs: map<string, Config>, minted: set<Mint>, f: Fleet<S>, move: Move<S>, after: Fleet<S>)
    requires Sound(minted, f) && IsMove(cfgs, minted, f, move, after)
    ensures Sound(minted, after)
  {
    hide Sound;
    StepSound(cfgs, minted, f, move.k, move.step);
  }

  ghost predicate Held<S>(f: Fleet<S>, k: string, s: S, c: string) {
    k in f.nodes && s in f.nodes[k].socks && c in f.nodes[k].socks[s].subs
  }

  // The move by which socket `s` comes to hold channel `c`.
  ghost predicate Admitting<S>(cfgs: map<string, Config>, f: Fleet<S>, move: Move<S>, k: string, s: S, c: string) {
    && move.k == k && k in f.nodes && k in cfgs && s in f.nodes[k].socks
    && move.step.Receive? && move.step.s == s
    && move.step.ev.SubscribeEvent? && move.step.ev.channel == c && c !in f.nodes[k].socks[s].subs
    && SubscribeVerdict(cfgs[k], f.nodes[k].socks[s], c).Accepted?
  }

  lemma NewlyHeld<S>(cfgs: map<string, Config>, minted: set<Mint>, f: Fleet<S>, move: Move<S>, after: Fleet<S>, k: string, s: S, c: string)
    requires IsMove(cfgs, minted, f, move, after) && Held(after, k, s, c) && !Held(f, k, s, c)
    ensures Admitting(cfgs, f, move, k, s, c)
  {
    var n := f.nodes[move.k];
    hide Next, Enabled, SubscribeVerdict, OnlineEvent, HandleAlone, OfflineEvent;
    if s in f.nodes[k].socks {
      assert k == move.k;
      OwnStep(cfgs[k], n, move.step, s);
      OwnSubs(cfgs[k], n.socks[s], move.step, s);
    } else {
      NewcomerIsBare(cfgs[k], n, move.step, s);
    }
  }

  // Only a subscription adds a channel.
  lemma OwnSubs<S>(cfg: Config, s: Sock<S>, step: Step<S>, me: S)
    ensures var t := Own(cfg, s, step, me);
      forall c | c in t.subs && c !in s.subs ::
        step.Receive? && step.s == me && step.ev.SubscribeEvent? && step.ev.channel == c && SubscribeVerdict(cfg, s, c).Accepted?
  {
    hide OnlineEvent, OfflineEvent, SubscribeVerdict;
    if step.Receive? && !step.ev.SubscribeEvent? && !step.ev.UnsubscribeEvent? && !step.ev.PublishEvent? {
      hide HandleAlone;
      NodeRuns.AloneFeeds(cfg, s, step.ev, step.now);
    }
  }

  lemma {:induction false} AdmittedAt<S>(cfgs: map<string, Config>, minted: set<Mint>, states: seq<Fleet<S>>, moves: seq<Move<S>>,
                                         j: nat, k: string, s: S, c: string) returns (i: nat)
    requires IsRun(cfgs, minted, states, moves) && j < |states| && Held(states[j], k, s, c)
    ensures i < j && Admitting(cfgs, states[i], moves[i], k, s, c)
  {
    hide Admitting;
    assert j > 0;
    assert IsMove(cfgs, minted, states[j - 1], moves[j - 1], states[j]);
    if Held(states[j - 1], k, s, c) {
      i := AdmittedAt(cfgs, minted, states, moves, j - 1, k, s, c);
    } else {
      hide IsMove;
      NewlyHeld(cfgs, minted, states[j - 1], moves[j - 1], states[j], k, s, c);
      i := j - 1;
    }
  }

  // The move by which socket `s` gives up channel `c`: it unsubscribes, or leaves.
  predicate GivesUp<S(==)>(move: Move<S>, k: string, s: S, c: string) {
    && move.k == k
    && ((move.step.Receive? && move.step.s == s && move.step.ev.UnsubscribeEvent? && move.step.ev.channel == c && c != "")
        || (move.step.Leave? && move.step.s == s))
  }

  // A channel is held until then, whatever happens to the token it was let in under.
  lemma HeldUntil<S>(cfgs: map<string, Config>, minted: set<Mint>, f: Fleet<S>, move: Move<S>, after: Fleet<S>, k: string, s: S, c: string)
    requires IsMove(cfgs, minted, f, move, after) && Held(f, k, s, c)
    ensures Held(after, k, s, c) <==> !GivesUp(move, k, s, c)
  {
    hide Next, Enabled, SubscribeVerdict, OnlineEvent, OfflineEvent, HandleAlone;
    if move.k == k {
      var n := f.nodes[k];
      OwnStep(cfgs[k], n, move.step, s);
      if move.step.Receive? && !move.step.ev.SubscribeEvent? && !move.step.ev.UnsubscribeEvent? && !move.step.ev.PublishEvent? {
        NodeRuns.AloneFeeds(cfgs[k], n.socks[s], move.step.ev, move.step.now);
      }
    }
  }

  // Every channel held was let in, at a moment when the socket held a token that
  // admits it and that a minted hash stands for.
  lemma HeldWasAdmitted<S>(cfgs: map<string, Config>, minted: set<Mint>, states: seq<Fleet<S>>, moves: seq<Move<S>>,
                           j: nat, k: string, s: S, c: string) returns (i: nat, token: Token)
    requires IsRun(cfgs, minted, states, moves) && j < |states| && Held(states[j], k, s, c)
    ensures i < j && k in cfgs && k in states[i].nodes && s in states[i].nodes[k].socks
    ensures states[i].nodes[k].socks[s].handshaken && states[i].nodes[k].socks[s].token == Some(token)
    ensures Admits(cfgs[k], token, c) && Proven(minted, token)
  {
    i := AdmittedAt(cfgs, minted, states, moves, j, k, s, c);
    SoundAt(cfgs, minted, states, moves, i);
    hide IsRun, Proven, Admits;
    token := states[i].nodes[k].socks[s].token.value;
    assert HoldsProven(minted, states[i].nodes[k].socks[s]);
  }

  // With strict binding a visitor holds a chat channel only if PHP minted a hash for
  // the very chat that the channel names.
  lemma ChatWasMinted(cfg: Config, minted: set<Mint>, token: Token, c: string)
    requires Admits(cfg, token, c) && Proven(minted, token) && cfg.strictChannelBinding
    requires token.isVisitor && Contains(c, "chat_")
    ensures EndsWith(c, "_" + LastTokenPart(c))
    ensures exists date :: ChatVisitor(date, LastTokenPart(c)) in minted
  {
    ChatChannelHasUnderscore(c);
    EndsInLastPart(c);
    hide LastTokenPart, Contains, EndsWith;
    assert token.chanelName == c;
    assert ChatVisitor(Split(token.token, '.')[1], LastTokenPart(c)) in minted;
  }
}
