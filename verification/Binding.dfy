// When the hash of one chat opens the channel of that chat only, and for how long.
module Binding {
  import opened Prelude
  import opened Auth
  import opened Node
  import opened SocketRuns
  import opened Admission

  // ---- one visit -----------------------------------------------------------

  // The hash minted for the chat "1" at the time 7.
  function HashOf(cfg: Config): string { cfg.sha(ChatInput("7", cfg.secretHash, "1")) + "." + "7" }

  function Request(cfg: Config): LoginRequest { LoginRequest(Text(HashOf(cfg)), "chat_1", None) }

  function VisitToken(cfg: Config): Token { Token(HashOf(cfg), 7 + 7200, 7, "chat_1", 0, true, true, "") }

  lemma ChatNames()
    ensures Contains("chat_1", "chat_") && Contains("chat_2", "chat_")
    ensures LastTokenPart("chat_1") == "1" && LastTokenPart("chat_2") == "2"
  {
    assert "chat_" <= ("chat_1")[0..] && "chat_" <= ("chat_2")[0..];
    hide LastTokenPart;
    LastBehind("chat", "1");
    LastBehind("chat", "2");
    assert "chat" + "_" + "1" == "chat_1" && "chat" + "_" + "2" == "chat_2";
  }

  lemma SevenIs()
    ensures ParseInt("7") == Some(7) && AllDigits("7")
  {
    assert ("7")[..0] == "";
  }

  lemma Validates(cfg: Config)
    requires IdealHash(cfg.sha)
    ensures ValidateLogin(cfg.sha, HashOf(cfg), "chat_1", cfg.secretHash, 7) == Login(true, true, true)
  {
    ChatNames();
    SevenIs();
    hide Contains, LastTokenPart, ParseInt;
    MintedValidates(cfg.sha, HashOf(cfg), "chat_1", cfg.secretHash, 7, ChatVisitor("7", "1"));
  }

  lemma LoginWorks(cfg: Config)
    requires IdealHash(cfg.sha)
    ensures LoginResult(cfg, Request(cfg), 7) == Some((VisitToken(cfg), Genuine(VisitToken(cfg))))
  {
    Validates(cfg);
    hide ValidateLogin, HashOf, IdealHash, SignToken;
    assert LoginHash(Request(cfg)) == (HashOf(cfg), 0);
    Signs(HashOf(cfg));
  }

  lemma Signs(hash: string)
    ensures
      var t := Token(hash, 7 + 7200, 7, "chat_1", 0, true, true, "");
      SignToken(LoginToken(hash, "chat_1", 0, Login(true, true, true), 7), 7) == (t, Genuine(t))
  {
  }

  lemma LoginIsIdeal(cfg: Config, issued: set<Token>)
    requires IdealHash(cfg.sha)
    ensures Ideal(cfg, {ChatVisitor("7", "1")}, issued, LoginEvent(None, Request(cfg)))
  {
    SevenIs();
    var m := ChatVisitor("7", "1");
    HashParts(cfg.sha, cfg.secretHash, m, HashOf(cfg));
    hide Split, HashOf;
    assert MintInput(m, cfg.secretHash) == ChatInput("7", cfg.secretHash, "1");
    assert Handed(MintInput(m, cfg.secretHash), cfg.secretHash, {m});
  }

  // A visitor connects, shakes hands, logs in to the chat "1", subscribes to `c` at
  // the time `later` and then removes the token.
  function Visit(cfg: Config, k: string, c: string, later: int): seq<Move<int>> {
    [Move(k, Connect(0)),
     Move(k, Receive(0, Handshake(None, None), 7)),
     Move(k, Receive(0, LoginEvent(None, Request(cfg)), 7)),
     Move(k, Receive(0, SubscribeEvent(None, c, false), later)),
     Move(k, Receive(0, RemoveAuthToken(None), later))]
  }

  // Socket 0 of node `k`, as far as its own events matter.
  ghost predicate VisitorIs(f: Fleet<int>, k: string, handshaken: bool, token: Option<Token>, subs: set<string>) {
    && k in f.nodes && 0 in f.nodes[k].socks
    && var s := f.nodes[k].socks[0]; !s.gone && s.handshaken == handshaken && s.token == token && s.subs == subs
  }

  lemma VisitorStep(cfgs: map<string, Config>, minted: set<Mint>, f: Fleet<int>, k: string, ev: Event, now: int,
                    handshaken: bool, token: Option<Token>, subs: set<string>) returns (after: Fleet<int>)
    requires k in cfgs && VisitorIs(f, k, handshaken, token, subs) && Ideal(cfgs[k], minted, f.issued, ev)
    ensures IsMove(cfgs, minted, f, Move(k, Receive(0, ev, now)), after)
    ensures
      var t := OwnEvent(cfgs[k], f.nodes[k].socks[0], ev, now);
      !t.gone ==> VisitorIs(after, k, t.handshaken, t.token, t.subs)
  {
    var step := Receive(0, ev, now);
    assert Enabled(f.nodes[k], step);
    after := After(cfgs, f, k, step);
    hide Ideal, Enabled, Next, OwnEvent;
    OwnStep(cfgs[k], f.nodes[k], step, 0);
  }

  lemma Connected(cfgs: map<string, Config>, minted: set<Mint>, k: string) returns (start: Fleet<int>, after: Fleet<int>)
    requires k in cfgs
    ensures start == Fleet(map[k := NewNode()], {}) && IsMove(cfgs, minted, start, Move(k, Connect(0)), after)
    ensures VisitorIs(after, k, false, None, {})
  {
    start := Fleet(map[k := NewNode()], {});
    after := After(cfgs, start, k, Connect(0));
  }

  // What the socket's own events do to the visitor.
  lemma ShakesHands<S>(cfg: Config, s: Sock<S>)
    ensures var t := OwnEvent(cfg, s, Handshake(None, None), 7);
      t.handshaken && t.token == None && t.subs == s.subs && t.gone == s.gone
  {
  }

  lemma LogsIn<S>(cfg: Config, s: Sock<S>)
    requires IdealHash(cfg.sha)
    ensures var t := OwnEvent(cfg, s, LoginEvent(None, Request(cfg)), 7);
      t.handshaken == s.handshaken && t.token == Some(VisitToken(cfg)) && t.subs == s.subs && t.gone == s.gone
  {
    LoginWorks(cfg);
    hide LoginResult, Request, VisitToken, Enqueue, IdealHash;
    EnqueueOnly(cfg, SetToken(s, Some(VisitToken(cfg))).(callID := s.callID + 1), SetAuthToken(Genuine(VisitToken(cfg)), s.callID + 1));
  }

  lemma EnqueueOnly<S>(cfg: Config, s: Sock<S>, p: Packet<S>)
    ensures var t := Enqueue(cfg, s, p); t.handshaken == s.handshaken && t.token == s.token && t.subs == s.subs && t.gone == s.gone
  {
  }

  lemma Subscribes<S>(cfg: Config, s: Sock<S>, c: string, later: int)
    requires s.handshaken && s.token == Some(VisitToken(cfg)) && s.subs == {} && cfg.channelLimit > 0
    requires Contains(c, "chat_") && (c == "chat_1" || !cfg.strictChannelBinding)
    ensures SubscribeVerdict(cfg, s, c).Accepted?
    ensures var t := OwnEvent(cfg, s, SubscribeEvent(None, c, false), later);
      t.handshaken && t.token.Some? && t.subs == {c} && t.gone == s.gone
  {
    assert c != "" by { ChatChannelHasUnderscore(c); }
    hide Contains, OnlineEvent, HashOf;
  }

  ghost predicate AsVisitor<S>(f: Fleet<S>, k: string, s: S) {
    && k in f.nodes && s in f.nodes[k].socks
    && f.nodes[k].socks[s].token.Some? && f.nodes[k].socks[s].token.value.isVisitor
  }

  // At state `j` socket `s` holds channel `c` that it was let in to at move `i`, as a
  // visitor.
  ghost predicate HeldSince<S>(cfgs: map<string, Config>, states: seq<Fleet<S>>, moves: seq<Move<S>>,
                               i: nat, j: nat, k: string, s: S, c: string) {
    && i < j < |states| && i < |moves|
    && Admitting(cfgs, states[i], moves[i], k, s, c) && AsVisitor(states[i], k, s)
    && forall m | i < m <= j :: Held(states[m], k, s, c)
  }

  lemma VisitRuns(cfgs: map<string, Config>, k: string, c: string, later: int) returns (states: seq<Fleet<int>>)
    requires k in cfgs && IdealHash(cfgs[k].sha) && cfgs[k].channelLimit > 0
    requires Contains(c, "chat_") && (c == "chat_1" || !cfgs[k].strictChannelBinding)
    ensures var moves := Visit(cfgs[k], k, c, later);
      && IsRun(cfgs, {ChatVisitor("7", "1")}, states, moves)
      && HeldSince(cfgs, states, moves, 3, 5, k, 0, c)
      && VisitorIs(states[3], k, true, Some(VisitToken(cfgs[k])), {}) && VisitorIs(states[5], k, true, None, {c})
  {
    hide Ideal, IsMove, OwnEvent, Contains, VisitToken, Request, SubscribeVerdict;
    var cfg := cfgs[k];
    var minted := {ChatVisitor("7", "1")};
    var moves := Visit(cfg, k, c, later);
    var f0, f1 := Connected(cfgs, minted, k);
    PlainIdeal(cfg, minted, f1.issued, Handshake(None, None));
    var f2 := VisitorStep(cfgs, minted, f1, k, Handshake(None, None), 7, false, None, {});
    ShakesHands(cfg, f1.nodes[k].socks[0]);
    LoginIsIdeal(cfg, f2.issued);
    var f3 := VisitorStep(cfgs, minted, f2, k, LoginEvent(None, Request(cfg)), 7, true, None, {});
    LogsIn(cfg, f2.nodes[k].socks[0]);
    PlainIdeal(cfg, minted, f3.issued, SubscribeEvent(None, c, false));
    var f4 := VisitorStep(cfgs, minted, f3, k, SubscribeEvent(None, c, false), later, true, Some(VisitToken(cfg)), {});
    Subscribes(cfg, f3.nodes[k].socks[0], c, later);
    PlainIdeal(cfg, minted, f4.issued, RemoveAuthToken(None));
    var f5 := VisitorStep(cfgs, minted, f4, k, RemoveAuthToken(None), later, true, f4.nodes[k].socks[0].token, {c});
    Removes(cfg, f4.nodes[k].socks[0], later);
    states := [f0, f1, f2, f3, f4, f5];
    assert AsVisitor(f3, k, 0) by { VisitorOf(cfg); }
  }

  lemma VisitorOf(cfg: Config)
    ensures VisitToken(cfg).isVisitor
  {
  }

  lemma Removes<S>(cfg: Config, s: Sock<S>, later: int)
    ensures var t := OwnEvent(cfg, s, RemoveAuthToken(None), later);
      t.handshaken == s.handshaken && t.token == None && t.subs == s.subs && t.gone == s.gone
  {
  }

  lemma PlainIdeal(cfg: Config, minted: set<Mint>, issued: set<Token>, ev: Event)
    requires !ev.LoginEvent? && Presented(ev) == None
    ensures Ideal(cfg, minted, issued, ev)
  {
  }

  // ---- which chats a hash opens --------------------------------------------

  ghost predicate MintedFor(minted: set<Mint>, c: string) {
    exists date :: ChatVisitor(date, LastTokenPart(c)) in minted
  }

  // In every run, every chat channel held that a visitor was let in to is one that
  // PHP minted a hash for.
  ghost predicate Bound(cfgs: map<string, Config>) {
    forall minted: set<Mint>, states: seq<Fleet<int>>, moves: seq<Move<int>>, i: nat, j: nat, k: string, s: int, c: string ::
      BoundAt(cfgs, minted, states, moves, i, j, k, s, c)
  }

  ghost predicate BoundAt<S>(cfgs: map<string, Config>, minted: set<Mint>, states: seq<Fleet<S>>, moves: seq<Move<S>>,
                             i: nat, j: nat, k: string, s: S, c: string) {
    IsRun(cfgs, minted, states, moves) && HeldSince(cfgs, states, moves, i, j, k, s, c) && Contains(c, "chat_") ==>
      MintedFor(minted, c)
  }

  // A node where that can fail.
  predicate Loose(cfg: Config) { !cfg.strictChannelBinding && cfg.channelLimit > 0 }

  lemma StrictIsBound<S>(cfgs: map<string, Config>, minted: set<Mint>, states: seq<Fleet<S>>, moves: seq<Move<S>>,
                         i: nat, j: nat, k: string, s: S, c: string)
    requires IsRun(cfgs, minted, states, moves) && HeldSince(cfgs, states, moves, i, j, k, s, c) && Contains(c, "chat_")
    requires !Loose(cfgs[k])
    ensures MintedFor(minted, c)
  {
    SoundAt(cfgs, minted, states, moves, i);
    hide IsRun, Proven, Contains, LastTokenPart, Split;
    var sock := states[i].nodes[k].socks[s];
    assert HoldsProven(minted, sock);
    assert cfgs[k].channelLimit > 0;
    ChatWasMinted(cfgs[k], minted, sock.token.value, c);
  }

  // That is so exactly if every node that lets anybody in binds strictly: without it
  // the hash of one chat opens every other.
  lemma BoundExactly(cfgs: map<string, Config>)
    requires forall k | k in cfgs :: IdealHash(cfgs[k].sha)
    ensures Bound(cfgs) <==> forall k | k in cfgs :: !Loose(cfgs[k])
  {
    hide Bound, Loose, IdealHash;
    if forall k | k in cfgs :: !Loose(cfgs[k]) {
      StrictBinds(cfgs);
    } else {
      var k :| k in cfgs && Loose(cfgs[k]);
      LooseDoesNot(cfgs, k);
    }
  }

  lemma StrictBinds(cfgs: map<string, Config>)
    requires forall k | k in cfgs :: !Loose(cfgs[k])
    ensures Bound(cfgs)
  {
    hide IsRun, HeldSince, Contains, MintedFor, Loose;
    forall minted: set<Mint>, states: seq<Fleet<int>>, moves: seq<Move<int>>, i: nat, j: nat, k: string, s: int, c: string
      ensures BoundAt(cfgs, minted, states, moves, i, j, k, s, c)
    {
      if IsRun(cfgs, minted, states, moves) && HeldSince(cfgs, states, moves, i, j, k, s, c) && Contains(c, "chat_") {
        HeldSomewhere(cfgs, states, moves, i, j, k, s, c);
        StrictIsBound(cfgs, minted, states, moves, i, j, k, s, c);
      }
    }
  }

  // With the hash of the chat "1" a visitor comes to hold the channel of the chat "2".
  lemma LooseDoesNot(cfgs: map<string, Config>, k: string)
    requires k in cfgs && Loose(cfgs[k]) && IdealHash(cfgs[k].sha)
    ensures !Bound(cfgs)
  {
    hide IsRun, HeldSince, Contains, MintedFor, IdealHash, VisitorIs, LastTokenPart;
    ChatNames();
    NotMinted();
    var states := VisitRuns(cfgs, k, "chat_2", 7);
    assert !BoundAt(cfgs, {ChatVisitor("7", "1")}, states, Visit(cfgs[k], k, "chat_2", 7), 3, 5, k, 0, "chat_2");
    hide BoundAt;
  }

  lemma HeldSomewhere<S>(cfgs: map<string, Config>, states: seq<Fleet<S>>, moves: seq<Move<S>>, i: nat, j: nat, k: string, s: S, c: string)
    requires HeldSince(cfgs, states, moves, i, j, k, s, c)
    ensures k in cfgs
  {
  }

  lemma NotMinted()
    ensures !MintedFor({ChatVisitor("7", "1")}, "chat_2")
  {
    ChatNames();
  }

  // ---- for how long --------------------------------------------------------

  // A token is good for a subscription at any time after the login, though presented
  // then it would be refused; and the channel is held on without it.
  lemma OutlivesToken(cfgs: map<string, Config>, k: string, later: int) returns (states: seq<Fleet<int>>)
    requires k in cfgs && IdealHash(cfgs[k].sha) && cfgs[k].channelLimit > 0 && later >= 7 + 7200
    ensures IsRun(cfgs, {ChatVisitor("7", "1")}, states, Visit(cfgs[k], k, "chat_1", later))
    ensures VisitorIs(states[3], k, true, Some(VisitToken(cfgs[k])), {})
    ensures VerifyToken(Genuine(VisitToken(cfgs[k])), later) == Expired
    ensures VisitorIs(states[5], k, true, None, {"chat_1"})
  {
    ChatNames();
    hide IsRun, HeldSince, Contains;
    states := VisitRuns(cfgs, k, "chat_1", later);
  }
}
