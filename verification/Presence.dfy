// The presence events of one visitor, over a run in which its token stays the same.
module Presence {
  import opened Prelude
  import opened Auth
  import opened Node
  import opened NodeRuns
  import opened SocketRuns
  import opened Contents
  import Binding
  import RedisWire

  ghost predicate IsRun<S>(cfg: Config, states: seq<Node<S>>, steps: seq<Step<S>>) {
    |states| == |steps| + 1
    && forall i | 0 <= i < |steps| :: Enabled(states[i], steps[i]) && states[i + 1] == Next(cfg, states[i], steps[i])
  }

  // The events after which a socket holds another token, or the same one afresh.
  predicate Retokens(cfg: Config, ev: Event, now: int) {
    match ev
    case Handshake(_, _) => true
    case RemoveAuthToken(_) => true
    case Authenticate(_, signed) => signed.Some?
    case LoginEvent(_, request) => LoginResult(cfg, request, now).Some?
    case _ => false
  }

  // `step` leaves the token of `s` alone, and does not end its connection.
  predicate Calm<S(==)>(cfg: Config, step: Step<S>, s: S) {
    && (step.Receive? && step.s == s ==> !Retokens(cfg, step.ev, step.now))
    && !(step.Leave? && step.s == s)
  }

  // The socket subscribes in this step and is let in.
  predicate Accepts<S(==)>(cfg: Config, n: Node<S>, step: Step<S>, s: S) {
    step.Receive? && step.s == s && s in n.socks && step.ev.SubscribeEvent?
    && SubscribeVerdict(cfg, n.socks[s], step.ev.channel).Accepted?
  }

  // A calm step announces what an accepted subscription announces, or nothing.
  lemma CalmOwn<S>(cfg: Config, n: Node<S>, step: Step<S>, s: S)
    requires s in n.socks && Calm(cfg, step, s)
    ensures
      var t := Own(cfg, n.socks[s], step, s);
      if Accepts(cfg, n, step, s)
      then
        var token := n.socks[s].token.value;
        && n.socks[s].token.Some? && Admits(cfg, token, step.ev.channel)
        && t.token == Some(if IsChatChannel(token, step.ev.channel) then token.(chanelNameChat := step.ev.channel) else token)
        && t.announced == WithPresence(n.socks[s], OnlineEvent(cfg, token, step.ev.channel)).announced
      else t.token == n.socks[s].token && t.announced == n.socks[s].announced
  {
    hide IsChatChannel, OnlineEvent, Admits;
    if step.Receive? && step.s == s && !step.ev.SubscribeEvent? {
      hide LoginResult, VerifyToken;
      CalmAlone(cfg, n.socks[s], step.ev, step.now);
    }
  }

  lemma CalmAlone<S>(cfg: Config, s: Sock<S>, ev: Event, now: int)
    requires !Retokens(cfg, ev, now)
    ensures HandleAlone(cfg, s, ev, now).token == s.token && HandleAlone(cfg, s, ev, now).announced == s.announced
  {
    hide LoginResult;
    match ev
    case Authenticate(cid, _) => ReplyFeeds(cfg, s, cid, Status(s.authed, None));
    case LoginEvent(cid, _) => RefuseFeeds(cfg, s, cid, "LoginFailedError");
    case Unknown(cid, _) => RefuseFeeds(cfg, s, cid, "UnknownEventError");
    case _ =>
  }

  // How many of the first `j` steps let the socket onto a channel.
  ghost function Accepted<S>(cfg: Config, states: seq<Node<S>>, steps: seq<Step<S>>, s: S, j: nat): nat
    requires j <= |steps| && |states| == |steps| + 1
  {
    if j == 0 then 0
    else Accepted(cfg, states, steps, s, j - 1) + if Accepts(cfg, states[j - 1], steps[j - 1], s) then 1 else 0
  }

  function SiteEvent(token: Token, online: bool): Presence {
    Presence(SiteChannel(token), online, LastTokenPart(token.chanelName))
  }

  // ---- the token of the site -----------------------------------------------

  // The run up to its last step, in which the socket leaves.
  ghost predicate Visit<S>(cfg: Config, states: seq<Node<S>>, steps: seq<Step<S>>, s: S) {
    && IsRun(cfg, states, steps) && |steps| > 0
    && s in states[0].socks
    && steps[|steps| - 1].Leave? && steps[|steps| - 1].s == s
    && forall i | 0 <= i < |steps| - 1 :: Calm(cfg, steps[i], s)
  }

  ghost predicate AllOnline(ps: seq<Presence>, p: Presence) { forall i | 0 <= i < |ps| :: ps[i] == p }

  lemma {:induction false} SiteUpTo<S>(cfg: Config, states: seq<Node<S>>, steps: seq<Step<S>>, s: S, token: Token, j: nat)
    returns (online: seq<Presence>)
    requires Visit(cfg, states, steps, s) && cfg.trackVisitors && j < |steps|
    requires states[0].socks[s].token == Some(token) && token.isVisitor && !token.isChatToken
    ensures s in states[j].socks && states[j].socks[s].token == Some(token)
    ensures states[j].socks[s].announced == states[0].socks[s].announced + online
    ensures |online| == Accepted(cfg, states, steps, s, j) && AllOnline(online, SiteEvent(token, true))
  {
    hide Own, Next, Enabled, SubscribeVerdict, LastTokenPart, SiteChannel, Contains, Calm, Accepts;
    if j == 0 {
      online := [];
    } else {
      var before := SiteUpTo(cfg, states, steps, s, token, j - 1);
      VisitStep(cfg, states, steps, s, j - 1);
      CalmOwn(cfg, states[j - 1], steps[j - 1], s);
      OwnStep(cfg, states[j - 1], steps[j - 1], s);
      online := if Accepts(cfg, states[j - 1], steps[j - 1], s) then before + [SiteEvent(token, true)] else before;
    }
  }

  // A visitor of the site announces itself once for every channel request that is
  // let in, and once that it is gone, always in the same channel and under the same
  // name.
  lemma SitePresence<S>(cfg: Config, states: seq<Node<S>>, steps: seq<Step<S>>, s: S, token: Token)
    returns (online: seq<Presence>)
    requires Visit(cfg, states, steps, s) && cfg.trackVisitors
    requires states[0].socks[s].token == Some(token) && token.isVisitor && !token.isChatToken && token.chanelNameChat == ""
    ensures s in states[|steps|].socks
    ensures states[|steps|].socks[s].announced == states[0].socks[s].announced + online + [SiteEvent(token, false)]
    ensures |online| == Accepted(cfg, states, steps, s, |steps| - 1) && AllOnline(online, SiteEvent(token, true))
  {
    var j := |steps| - 1;
    online := SiteUpTo(cfg, states, steps, s, token, j);
    hide Next, Enabled, LastTokenPart, SiteChannel, Accepted;
    assert Enabled(states[j], steps[j]) && states[j + 1] == Next(cfg, states[j], steps[j]);
    hide Visit;
    OwnStep(cfg, states[j], steps[j], s);
  }

  // ---- the token of a chat -------------------------------------------------

  function ChatEvent(token: Token, online: bool): Presence { Presence(token.chanelName, online, "") }

  // Everything announced is that a visitor is online, in the chat or on the site.
  ghost predicate OnlineIn(ps: seq<Presence>, token: Token) {
    forall i | 0 <= i < |ps| :: ps[i] == ChatEvent(token, true) || ps[i] == SiteEvent(token, true)
  }

  // The socket has been let into a chat among the first `j` steps.
  ghost predicate Chatted<S>(cfg: Config, states: seq<Node<S>>, steps: seq<Step<S>>, s: S, j: nat)
    requires j <= |steps| && |states| == |steps| + 1
  {
    exists i :: 0 <= i < j && ChatStepped(cfg, states[i], steps[i], s)
  }

  // The socket has been let into a channel that is no chat among the first `j` steps.
  ghost predicate Browsed<S>(cfg: Config, states: seq<Node<S>>, steps: seq<Step<S>>, s: S, j: nat)
    requires j <= |steps| && |states| == |steps| + 1
  {
    exists i :: 0 <= i < j && BrowseStepped(cfg, states[i], steps[i], s)
  }

  ghost predicate BrowseStepped<S>(cfg: Config, n: Node<S>, step: Step<S>, s: S) {
    Accepts(cfg, n, step, s) && !Contains(step.ev.channel, "chat_")
  }

  function Marked(token: Token, chatted: bool): Token {
    if chatted then token.(chanelNameChat := token.chanelName) else token
  }

  ghost predicate ChatStepped<S>(cfg: Config, n: Node<S>, step: Step<S>, s: S) {
    Accepts(cfg, n, step, s) && Contains(step.ev.channel, "chat_")
  }

  lemma ChatStep<S>(cfg: Config, n: Node<S>, step: Step<S>, s: S, token: Token, was: bool)
    returns (more: seq<Presence>)
    requires Enabled(n, step) && s in n.socks && Calm(cfg, step, s) && cfg.strictChannelBinding
    requires n.socks[s].token == Some(Marked(token, was)) && token.isVisitor
    ensures s in Next(cfg, n, step).socks
    ensures Next(cfg, n, step).socks[s].token == Some(Marked(token, was || ChatStepped(cfg, n, step, s)))
    ensures Next(cfg, n, step).socks[s].announced == n.socks[s].announced + more
    ensures OnlineIn(more, token) && (ChatStepped(cfg, n, step, s) ==> more == [ChatEvent(token, true)])
    ensures SiteEvent(token, true) in more <==> cfg.trackVisitors && BrowseStepped(cfg, n, step, s)
  {
    hide Own, Next, Enabled, SubscribeVerdict, LastTokenPart, SiteChannel, Contains;
    CalmOwn(cfg, n, step, s);
    OwnStep(cfg, n, step, s);
    if Accepts(cfg, n, step, s) {
      var p := OnlineEvent(cfg, Marked(token, was), step.ev.channel);
      OnlineKinds(cfg, token, was, step.ev.channel);
      if Contains(step.ev.channel, "chat_") { ChatIsNotSite(token); }
      more := if p.Some? then [p.value] else [];
    } else {
      more := [];
    }
  }

  lemma {:induction false} ChatUpTo<S>(cfg: Config, states: seq<Node<S>>, steps: seq<Step<S>>, s: S, token: Token, j: nat)
    returns (online: seq<Presence>)
    requires Visit(cfg, states, steps, s) && cfg.strictChannelBinding && j < |steps|
    requires states[0].socks[s].token == Some(token) && token.isVisitor && token.chanelNameChat == ""
    ensures |states| == |steps| + 1
    ensures s in states[j].socks && states[j].socks[s].token == Some(Marked(token, Chatted(cfg, states, steps, s, j)))
    ensures states[j].socks[s].announced == states[0].socks[s].announced + online
    ensures OnlineIn(online, token) && (Chatted(cfg, states, steps, s, j) ==> ChatEvent(token, true) in online)
    ensures SiteEvent(token, true) in online <==> cfg.trackVisitors && Browsed(cfg, states, steps, s, j)
  {
    hide Next, Enabled, Calm, ChatStepped, BrowseStepped, ChatEvent, SiteEvent, Marked;
    if j == 0 {
      online := [];
      assert !Chatted(cfg, states, steps, s, 0) && OnlineIn(online, token);
      assert Marked(token, false) == token by { MarkedNot(token); }
    } else {
      VisitStep(cfg, states, steps, s, j - 1);
      var before := ChatUpTo(cfg, states, steps, s, token, j - 1);
      ChattedNext(cfg, states, steps, s, j);
      BrowsedNext(cfg, states, steps, s, j);
      var was := Chatted(cfg, states, steps, s, j - 1);
      var more := ChatStep(cfg, states[j - 1], steps[j - 1], s, token, was);
      online := before + more;
      OnlineJoined(before, more, token);
      assert states[j].socks[s].announced == states[0].socks[s].announced + online;
    }
    hide Visit, Chatted, Browsed, OnlineIn;
  }

  lemma MarkedNot(token: Token)
    ensures Marked(token, false) == token
  {
  }

  lemma VisitStep<S>(cfg: Config, states: seq<Node<S>>, steps: seq<Step<S>>, s: S, i: nat)
    requires Visit(cfg, states, steps, s) && i < |steps| - 1
    ensures |states| == |steps| + 1
    ensures Enabled(states[i], steps[i]) && states[i + 1] == Next(cfg, states[i], steps[i]) && Calm(cfg, steps[i], s)
  {
    hide Next, Enabled;
  }

  lemma VisitEnds<S>(cfg: Config, states: seq<Node<S>>, steps: seq<Step<S>>, s: S)
    requires Visit(cfg, states, steps, s)
    ensures
      var j := |steps| - 1;
      && |states| == |steps| + 1 && j >= 0 && steps[j].Leave? && steps[j].s == s
      && Enabled(states[j], steps[j]) && states[j + 1] == Next(cfg, states[j], steps[j])
  {
    hide Next, Enabled;
  }

  lemma OnlineJoined(a: seq<Presence>, b: seq<Presence>, token: Token)
    requires OnlineIn(a, token) && OnlineIn(b, token)
    ensures OnlineIn(a + b, token)
  {
    hide ChatEvent, SiteEvent;
  }

  lemma ChattedNext<S>(cfg: Config, states: seq<Node<S>>, steps: seq<Step<S>>, s: S, j: nat)
    requires 0 < j <= |steps| && |states| == |steps| + 1
    ensures Chatted(cfg, states, steps, s, j)
         == (Chatted(cfg, states, steps, s, j - 1) || ChatStepped(cfg, states[j - 1], steps[j - 1], s))
  {
    hide ChatStepped;
  }

  lemma BrowsedNext<S>(cfg: Config, states: seq<Node<S>>, steps: seq<Step<S>>, s: S, j: nat)
    requires 0 < j <= |steps| && |states| == |steps| + 1
    ensures Browsed(cfg, states, steps, s, j)
         == (Browsed(cfg, states, steps, s, j - 1) || BrowseStepped(cfg, states[j - 1], steps[j - 1], s))
  {
    hide BrowseStepped;
  }

  // The channel of a chat is not the channel of the site.
  lemma ChatIsNotSite(token: Token)
    requires Contains(token.chanelName, "chat_")
    ensures ChatEvent(token, true) != SiteEvent(token, true) && ChatEvent(token, false) != SiteEvent(token, false)
  {
    SiteIsNoChat(token);
    hide Contains, SiteChannel, LastTokenPart;
  }

  lemma SiteIsNoChat(token: Token)
    ensures !Contains(SiteChannel(token), "chat_")
  {
    NoLetters(token.instanceID);
    hide Itoa;
    var channel := SiteChannel(token);
    assert forall c | c in channel :: c != 'c';
    NotChat(channel);
  }

  lemma OnlineKinds(cfg: Config, token: Token, was: bool, channel: string)
    requires token.isVisitor && cfg.strictChannelBinding && Admits(cfg, Marked(token, was), channel)
    ensures
      var p := OnlineEvent(cfg, Marked(token, was), channel);
      if Contains(channel, "chat_") then channel == token.chanelName && p == Some(ChatEvent(token, true))
      else p == if cfg.trackVisitors then Some(SiteEvent(token, true)) else None
  {
    hide Contains, LastTokenPart;
  }

  // A visitor that was let into its chat ends with one event that it is gone, in
  // that chat; before it there are only events that it is online, one at least in
  // the chat. It is announced on the site too exactly if visitors are tracked and it
  // was let into a channel that is no chat; and nothing takes that back.
  lemma ChatPresence<S>(cfg: Config, states: seq<Node<S>>, steps: seq<Step<S>>, s: S, token: Token)
    returns (online: seq<Presence>)
    requires Visit(cfg, states, steps, s) && cfg.strictChannelBinding
    requires states[0].socks[s].token == Some(token) && token.isVisitor && token.chanelNameChat == ""
    requires Chatted(cfg, states, steps, s, |steps| - 1)
    ensures s in states[|steps|].socks
    ensures states[|steps|].socks[s].announced == states[0].socks[s].announced + online + [ChatEvent(token, false)]
    ensures OnlineIn(online, token) && ChatEvent(token, true) in online
    ensures SiteEvent(token, true) in online <==> cfg.trackVisitors && Browsed(cfg, states, steps, s, |steps| - 1)
    ensures SiteEvent(token, false) !in online + [ChatEvent(token, false)]
  {
    var j := |steps| - 1;
    online := ChatUpTo(cfg, states, steps, s, token, j);
    hide Next, Enabled, LastTokenPart, SiteChannel, Chatted, Browsed, Visit, Contains;
    VisitEnds(cfg, states, steps, s);
    ChatNamed(cfg, states, steps, s, token, j);
    assert token.chanelName != "" by { ChatChannelHasUnderscore(token.chanelName); }
    ChatIsNotSite(token);
    hide Departs, Arrives, Accepts, SiteEvent, Calm;
    StepAnnounces(cfg, states[j], steps[j], s);
    LeavesChat(cfg, states[j], steps[j], s, token);
  }

  lemma LeavesChat<S>(cfg: Config, n: Node<S>, step: Step<S>, s: S, token: Token)
    requires step.Leave? && token.isVisitor && token.chanelName != ""
    ensures !Accepts(cfg, n, step, s) && Departs(cfg, Some(Marked(token, true))) == [ChatEvent(token, false)]
  {
  }

  lemma ChatNamed<S>(cfg: Config, states: seq<Node<S>>, steps: seq<Step<S>>, s: S, token: Token, j: nat)
    requires Visit(cfg, states, steps, s) && cfg.strictChannelBinding && j < |steps|
    requires states[0].socks[s].token == Some(token) && token.isVisitor && token.chanelNameChat == ""
    requires Chatted(cfg, states, steps, s, j)
    ensures Contains(token.chanelName, "chat_")
  {
    var i :| 0 <= i < j && ChatStepped(cfg, states[i], steps[i], s);
    var before := ChatUpTo(cfg, states, steps, s, token, i);
    CalmOwn(cfg, states[i], steps[i], s);
    hide Own, Next, Enabled, SubscribeVerdict, LastTokenPart, Chatted;
    OnlineKinds(cfg, token, Chatted(cfg, states, steps, s, i), steps[i].ev.channel);
  }

  // ---- such a visit --------------------------------------------------------

  // Socket 0 of a node, as far as presence matters.
  ghost predicate VisitorIs(n: Node<int>, handshaken: bool, token: Option<Token>, subs: set<string>, announced: seq<Presence>) {
    && 0 in n.socks
    && var s := n.socks[0]; !s.gone && s.handshaken == handshaken && s.token == token && s.subs == subs && s.announced == announced
  }

  lemma VisitorStep(cfg: Config, n: Node<int>, ev: Event) returns (m: Node<int>)
    requires 0 in n.socks && !n.socks[0].gone
    ensures Enabled(n, Receive(0, ev, 7)) && m == Next(cfg, n, Receive(0, ev, 7))
    ensures 0 in m.socks && SameOwn(OwnEvent(cfg, n.socks[0], ev, 7), m.socks[0])
  {
    m := Next(cfg, n, Receive(0, ev, 7));
    OwnStep(cfg, n, Receive(0, ev, 7), 0);
    hide Next, OwnEvent;
  }

  lemma VisitorSubscribes(cfg: Config, n: Node<int>, m: Node<int>, c: string, token: Token, subs: set<string>, announced: seq<Presence>, p: Presence)
    requires VisitorIs(n, true, Some(token), subs, announced)
    requires c != "" && |subs| < cfg.channelLimit && Admits(cfg, token, c) && OnlineEvent(cfg, token, c) == Some(p)
    requires 0 in m.socks && SameOwn(OwnEvent(cfg, n.socks[0], SubscribeEvent(None, c, false), 7), m.socks[0])
    ensures VisitorIs(m, true, Some(if IsChatChannel(token, c) then token.(chanelNameChat := c) else token),
                      subs + {c}, announced + [p])
  {
    hide IsChatChannel, OnlineEvent, Admits;
  }

  lemma VisitorLeaves(cfg: Config, n: Node<int>, token: Token, channels: seq<string>, announced: seq<Presence>, p: Presence)
    returns (m: Node<int>)
    requires VisitorIs(n, true, Some(token), (set c | c in channels), announced) && OfflineEvent(cfg, Some(token)) == Some(p)
    ensures Enabled(n, Leave(0, channels)) && m == Next(cfg, n, Leave(0, channels))
    ensures 0 in m.socks && m.socks[0].announced == announced + [p]
  {
    m := Next(cfg, n, Leave(0, channels));
    OwnStep(cfg, n, Leave(0, channels), 0);
    hide Next, OfflineEvent;
  }

  function Browsing(cfg: Config): seq<Step<int>> {
    [Connect(0),
     Receive(0, Handshake(None, None), 7),
     Receive(0, LoginEvent(None, Binding.Request(cfg)), 7),
     Receive(0, SubscribeEvent(None, "chat_1", false), 7),
     Receive(0, SubscribeEvent(None, "news", false), 7),
     Leave(0, ["chat_1", "news"])]
  }

  // A visitor of the chat "1" subscribes to its chat and to "news", and leaves: what
  // it announced on the site stands.
  lemma SiteEventStands(cfg: Config) returns (states: seq<Node<int>>)
    requires IdealHash(cfg.sha) && cfg.trackVisitors && cfg.channelLimit > 1
    ensures IsRun(cfg, states, Browsing(cfg)) && states[0] == NewNode() && 0 in states[6].socks
    ensures var token := Binding.VisitToken(cfg);
      states[6].socks[0].announced == [ChatEvent(token, true), SiteEvent(token, true), ChatEvent(token, false)]
  {
    var token := Binding.VisitToken(cfg);
    hide VisitorIs, Binding.VisitToken, Binding.Request, Next, Enabled, IdealHash, ChatEvent, SiteEvent;
    var n0, n1, n2, n3 := VisitBegins(cfg);
    assert token.isVisitor && token.isChatToken && token.chanelName == "chat_1" by { TokenOf(cfg); }
    var n4, n5, n6 := VisitGoesOn(cfg, n3, token);
    states := [n0, n1, n2, n3, n4, n5, n6];
  }

  lemma TokenOf(cfg: Config)
    ensures var token := Binding.VisitToken(cfg); token.isVisitor && token.isChatToken && token.chanelName == "chat_1"
  {
  }

  lemma Connects(cfg: Config) returns (n0: Node<int>, n1: Node<int>)
    ensures n0 == NewNode() && Enabled(n0, Connect(0)) && n1 == Next(cfg, n0, Connect(0))
    ensures VisitorIs(n1, false, None, {}, [])
  {
    n0 := NewNode();
    n1 := Next(cfg, n0, Connect(0));
  }

  lemma VisitBegins(cfg: Config) returns (n0: Node<int>, n1: Node<int>, n2: Node<int>, n3: Node<int>)
    requires IdealHash(cfg.sha)
    ensures n0 == NewNode() && Enabled(n0, Connect(0)) && n1 == Next(cfg, n0, Connect(0))
    ensures Enabled(n1, Browsing(cfg)[1]) && n2 == Next(cfg, n1, Browsing(cfg)[1])
    ensures Enabled(n2, Browsing(cfg)[2]) && n3 == Next(cfg, n2, Browsing(cfg)[2])
    ensures VisitorIs(n3, true, Some(Binding.VisitToken(cfg)), {}, [])
  {
    hide Binding.VisitToken, Binding.Request, OwnEvent, Next, Enabled, IdealHash;
    n0, n1 := Connects(cfg);
    n2 := VisitorStep(cfg, n1, Handshake(None, None));
    ShakesHands(cfg, n1, n2);
    n3 := VisitorStep(cfg, n2, LoginEvent(None, Binding.Request(cfg)));
    LogsIn(cfg, n2, n3);
  }

  lemma VisitGoesOn(cfg: Config, n3: Node<int>, token: Token) returns (n4: Node<int>, n5: Node<int>, n6: Node<int>)
    requires cfg.trackVisitors && cfg.channelLimit > 1 && VisitorIs(n3, true, Some(token), {}, [])
    requires token.isVisitor && token.isChatToken && token.chanelName == "chat_1"
    ensures Enabled(n3, Browsing(cfg)[3]) && n4 == Next(cfg, n3, Browsing(cfg)[3])
    ensures Enabled(n4, Browsing(cfg)[4]) && n5 == Next(cfg, n4, Browsing(cfg)[4])
    ensures Enabled(n5, Browsing(cfg)[5]) && n6 == Next(cfg, n5, Browsing(cfg)[5])
    ensures 0 in n6.socks && n6.socks[0].announced == [ChatEvent(token, true), SiteEvent(token, true), ChatEvent(token, false)]
  {
    hide Binding.Request, OwnEvent, Next, Enabled, ChatEvent, SiteEvent, Admits, IsChatChannel, OnlineEvent, OfflineEvent;
    var marked := token.(chanelNameChat := "chat_1");
    VisitEvents(cfg, token);
    n4 := VisitorStep(cfg, n3, SubscribeEvent(None, "chat_1", false));
    VisitorSubscribes(cfg, n3, n4, "chat_1", token, {}, [], ChatEvent(token, true));
    n5 := VisitorStep(cfg, n4, SubscribeEvent(None, "news", false));
    VisitorSubscribes(cfg, n4, n5, "news", marked, {} + {"chat_1"}, [] + [ChatEvent(token, true)], SiteEvent(token, true));
    assert {} + {"chat_1"} + {"news"} == set c | c in ["chat_1", "news"];
    n6 := VisitorLeaves(cfg, n5, marked, ["chat_1", "news"], n5.socks[0].announced, ChatEvent(token, false));
  }

  lemma ShakesHands(cfg: Config, n: Node<int>, m: Node<int>)
    requires VisitorIs(n, false, None, {}, [])
    requires 0 in m.socks && SameOwn(OwnEvent(cfg, n.socks[0], Handshake(None, None), 7), m.socks[0])
    ensures VisitorIs(m, true, None, {}, [])
  {
  }

  lemma LogsIn(cfg: Config, n: Node<int>, m: Node<int>)
    requires VisitorIs(n, true, None, {}, []) && IdealHash(cfg.sha)
    requires 0 in m.socks && SameOwn(OwnEvent(cfg, n.socks[0], LoginEvent(None, Binding.Request(cfg)), 7), m.socks[0])
    ensures VisitorIs(m, true, Some(Binding.VisitToken(cfg)), {}, [])
  {
    Binding.LogsIn(cfg, n.socks[0]);
    LoginAnnounces(cfg, n.socks[0], Binding.Request(cfg));
    hide OwnEvent, Binding.Request, Binding.VisitToken, IdealHash;
  }

  lemma LoginAnnounces<S>(cfg: Config, s: Sock<S>, r: LoginRequest)
    ensures OwnEvent(cfg, s, LoginEvent(None, r), 7).announced == s.announced
  {
    hide LoginResult;
  }

  // What this visitor may do, and what it announces.
  lemma VisitEvents(cfg: Config, token: Token)
    requires cfg.trackVisitors && token.isVisitor && token.isChatToken && token.chanelName == "chat_1"
    ensures
      var marked := token.(chanelNameChat := "chat_1");
      && Admits(cfg, token, "chat_1") && IsChatChannel(token, "chat_1") && OnlineEvent(cfg, token, "chat_1") == Some(ChatEvent(token, true))
      && Admits(cfg, marked, "news") && !IsChatChannel(marked, "news") && OnlineEvent(cfg, marked, "news") == Some(SiteEvent(token, true))
      && OfflineEvent(cfg, Some(marked)) == Some(ChatEvent(token, false))
  {
    assert Contains("chat_1", "chat_") by { Binding.ChatNames(); }
    NotChat("news");
    hide Contains, LastTokenPart, SiteChannel;
  }

  // ---- what is announced is published --------------------------------------

  lemma AloneAnnounces<S>(cfg: Config, s: Sock<S>, ev: Event, now: int)
    ensures HandleAlone(cfg, s, ev, now).announced == s.announced
  {
    hide LoginResult, VerifyToken, Reply, Refuse, Enqueue, Feeds;
    match ev
    case Handshake(cid, auth) =>
      var v := if auth.Some? then VerifyToken(auth.value, now) else Invalid;
      var t := AfterVerify(s, v).(handshaken := true);
      ReplyFeeds(cfg, t, cid, Status(t.authed, if auth.Some? && !v.Valid? then Some(ErrorName(v)) else None));
    case LoginEvent(cid, request) =>
      RefuseFeeds(cfg, s, cid, "LoginFailedError");
      ReplyFeeds(cfg, s, cid, Empty);
      if LoginResult(cfg, request, now).Some? {
        var (token, signed) := LoginResult(cfg, request, now).value;
        var t := Reply(cfg, s, cid, Empty);
        EnqueueFeeds(cfg, SetToken(t, Some(token)).(callID := t.callID + 1), SetAuthToken(signed, t.callID + 1));
      }
    case Authenticate(cid, signed) =>
      ReplyFeeds(cfg, s, cid, Status(s.authed, None));
      if signed.Some? {
        var v := VerifyToken(signed.value, now);
        var t := AfterVerify(s, v);
        ReplyFeeds(cfg, t, cid, Status(t.authed, if v.Valid? then None else Some(ErrorName(v))));
      }
    case RemoveAuthToken(cid) => ReplyFeeds(cfg, SetToken(s, None), cid, Empty);
    case Unknown(cid, _) => RefuseFeeds(cfg, s, cid, "UnknownEventError");
    case _ =>
  }

  // What an accepted subscription announces: a visitor's chat, or else its site if
  // visitors are tracked; operators announce nothing.
  function Arrives(cfg: Config, token: Token, channel: string): seq<Presence> {
    if !token.isVisitor then []
    else if Contains(channel, "chat_") then [Presence(channel, true, "")]
    else if cfg.trackVisitors then [Presence("ous_" + Itoa(token.instanceID), true, LastTokenPart(token.chanelName))]
    else []
  }

  // And what a departure does.
  function Departs(cfg: Config, token: Option<Token>): seq<Presence> {
    if token.None? || !token.value.isVisitor then []
    else if token.value.chanelNameChat != "" then [Presence(token.value.chanelNameChat, false, "")]
    else if cfg.trackVisitors then [Presence("ous_" + Itoa(token.value.instanceID), false, LastTokenPart(token.value.chanelName))]
    else []
  }

  // Every announcement of every step: only of the socket that subscribes or leaves, and
  // just that.
  lemma StepAnnounces<S>(cfg: Config, n: Node<S>, step: Step<S>, r: S)
    requires Enabled(n, step) && r in n.socks
    ensures r in Next(cfg, n, step).socks
    ensures Next(cfg, n, step).socks[r].announced == n.socks[r].announced +
      if Accepts(cfg, n, step, r) then Arrives(cfg, SubscribeVerdict(cfg, n.socks[r], step.ev.channel).token, step.ev.channel)
      else if step.Leave? && step.s == r then Departs(cfg, n.socks[r].token)
      else []
  {
    hide Next, Enabled, SubscribeVerdict, HandleAlone, Itoa, LastTokenPart, Contains;
    OwnStep(cfg, n, step, r);
    if step.Receive? && step.s == r && !step.ev.SubscribeEvent? { AloneAnnounces(cfg, n.socks[r], step.ev, step.now); }
  }

  // A refused subscription publishes nothing and announces nothing.
  lemma RefusedIsSilent<S>(cfg: Config, n: Node<S>, s: S, cid: Option<int>, channel: string, batch: bool, now: int, r: S)
    requires Books(cfg, n) && Live(n, s) && SubscribeVerdict(cfg, n.socks[s], channel).Refused? && r in n.socks
    ensures
      var m := Handle(cfg, n, s, SubscribeEvent(cid, channel, batch), now);
      && m.sent == n.sent && m.commands == n.commands && m.hub == n.hub
      && r in m.socks && Pubs(m.socks[r].offered) == Pubs(n.socks[r].offered)
      && m.socks[r].announced == n.socks[r].announced && m.socks[r].subs == n.socks[r].subs
  {
    hide SubscribeVerdict, Books, Pubs, Refuse;
    RefuseFeeds(cfg, n.socks[s], cid, SubscribeVerdict(cfg, n.socks[s], channel).error);
    assert Pubs(n.socks[s].offered) + [] == Pubs(n.socks[s].offered);
  }

  // What a socket announces in a step is published in that step, on its channel and
  // with its text, and nothing else is.
  lemma AnnouncedIsSent<S>(cfg: Config, n: Node<S>, step: Step<S>, p: Presence)
    requires Books(cfg, n) && Enabled(n, step) && (step.Leave? || (step.Receive? && step.ev.SubscribeEvent?))
    requires Next(cfg, n, step).socks[step.s].announced == n.socks[step.s].announced + [p]
    ensures SendsOne(cfg, n, Next(cfg, n, step), step.s, p.channel, PresenceText(cfg, p))
  {
    hide Books, Next, SubscribeVerdict, OnlineEvent, OfflineEvent, PresenceText, SendsOne;
    OwnStep(cfg, n, step, step.s);
    StepKeeps(cfg, n, step);
    var was := n.socks[step.s].announced;
    assert was + [p] != was && (was + [p])[|was|] == p;
    if step.Leave? {
      assert OfflineEvent(cfg, n.socks[step.s].token) == Some(p);
    } else {
      var v := SubscribeVerdict(cfg, n.socks[step.s], step.ev.channel);
      assert v.Accepted? && OnlineEvent(cfg, v.token, step.ev.channel) == Some(p);
    }
    SentForSends(cfg, n, Next(cfg, n, step), step.s, Publication(p.channel, PresenceText(cfg, p)));
  }

  // The texts of the four kinds of presence events.
  lemma PresenceTexts(cfg: Config, channel: string, vid: string)
    requires vid != ""
    ensures PresenceText(cfg, Presence(channel, true, "")) == "{\"op\":\"vi_online\",\"status\":true}"
    ensures PresenceText(cfg, Presence(channel, false, "")) == "{\"op\":\"vi_online\",\"status\":false}"
    ensures PresenceText(cfg, Presence(channel, true, vid))
         == "{\"op\":\"vi_online\",\"status\":true,\"vid\":" + cfg.json.quote(vid) + "}"
    ensures PresenceText(cfg, Presence(channel, false, vid))
         == "{\"op\":\"vi_online\",\"status\":false,\"vid\":" + cfg.json.quote(vid) + "}"
  {
  }

  // Every other node delivers the event as the very text that was published.
  lemma PresenceArrives(cfg: Config, p: Presence, receiver: string)
    requires RedisWire.Readable(cfg.instanceID) && receiver != cfg.instanceID && cfg.json.valid(PresenceText(cfg, p))
    ensures RedisWire.Decode(cfg.json, receiver, RedisWire.EncodeForRedis(cfg.json, cfg.instanceID, PresenceText(cfg, p)))
         == Some(PresenceText(cfg, p))
  {
    var text := PresenceText(cfg, p);
    assert text[0] == '{' && text[|text| - 1] == '}';
    hide PresenceText, RedisWire.Decode, RedisWire.EncodeForRedis, RedisWire.TrimSpace;
    RedisWire.TrimmedAlready(text);
    RedisWire.SameValue(cfg.json, cfg.instanceID, receiver, text);
  }

  // ---- the channel of a site -----------------------------------------------

  // A number is read back from its decimal text.
  lemma ItoaReads(n: int)
    requires -0x8000_0000_0000_0000 <= n <= 0x7FFF_FFFF_FFFF_FFFF
    ensures ParseInt(Itoa(n)) == Some(n)
  {
    var m := if n < 0 then -n else n;
    ItoaDigits(m);
    var text := Itoa(m);
    assert IsDigit(text[0]);
    if n < 0 {
      assert Itoa(n) == "-" + text && Itoa(n)[1..] == text;
    }
    hide Itoa, AllDigits, Digits;
  }

  // Two sites share a channel only if they are the same instance, and the channel
  // of a site is never that of a chat.
  lemma SiteChannelsDiffer(a: Token, b: Token)
    requires -0x8000_0000_0000_0000 <= a.instanceID <= 0x7FFF_FFFF_FFFF_FFFF
    requires -0x8000_0000_0000_0000 <= b.instanceID <= 0x7FFF_FFFF_FFFF_FFFF
    ensures SiteChannel(a) == SiteChannel(b) <==> a.instanceID == b.instanceID
    ensures !Contains(SiteChannel(a), "chat_")
  {
    ItoaReads(a.instanceID);
    ItoaReads(b.instanceID);
    Append("ous_", Itoa(a.instanceID));
    Append("ous_", Itoa(b.instanceID));
    SiteIsNoChat(a);
  }

  lemma NotChat(s: string)
    requires 'c' !in s
    ensures !Contains(s, "chat_")
  {
    forall i | 0 <= i <= |s| ensures !("chat_" <= s[i..]) {
      if i < |s| { assert s[i..][0] == s[i] && s[i] in s; }
    }
  }

  lemma NoLetters(n: int)
    ensures forall c | c in Itoa(n) :: IsDigit(c) || c == '-'
  {
    var m := if n < 0 then -n else n;
    ItoaDigits(m);
    assert forall i | 0 <= i < |Itoa(m)| :: IsDigit(Itoa(m)[i]);
    if n < 0 { assert Itoa(n) == "-" + Itoa(m); }
  }
}
