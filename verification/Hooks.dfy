// The hooks of the hub as steps of their own: they run after its lock is released, so
// those of several sockets can overtake each other.
module Hooks {
  import opened Prelude
  import opened Node

  datatype Hook = First(channel: string) | Last(channel: string)

  // `called` lists the hooks that fell due, in that order, and `ran` those that have
  // run, in theirs.
  datatype State<S> = State(node: Node<S>, waiting: seq<Hook>, called: seq<Hook>, ran: seq<Hook>)

  datatype Op<S> = Add(s: S, channel: string) | Remove(s: S, channel: string) | RunHook(i: nat)

  function Start<S>(n: Node<S>): State<S> { State(n, [], [], []) }

  function Call<S>(x: State<S>, hook: Hook): State<S> {
    x.(waiting := x.waiting + [hook], called := x.called + [hook])
  }

  function Effect<S>(n: Node<S>, hook: Hook): Node<S> {
    match hook
    case First(channel) => EnsureSubscribed(n, channel)
    case Last(channel) => EnsureUnsubscribed(n, channel)
  }

  // Hub.Add and Hub.Remove up to the hook, and any hook that waits.
  function After<S>(x: State<S>, op: Op<S>): State<S> {
    var n := x.node;
    match op
    case Add(s, c) =>
      var y := x.(node := n.(hub := n.hub[c := Subscribers(n, c) + {s}]));
      if c in n.hub then y else Call(y, First(c))
    case Remove(s, c) =>
      if s !in Subscribers(n, c) then x
      else
        var left := n.hub[c] - {s};
        if left != {} then x.(node := n.(hub := n.hub[c := left])) else Call(x.(node := n.(hub := n.hub - {c})), Last(c))
    case RunHook(i) =>
      if i >= |x.waiting| then x
      else State(Effect(n, x.waiting[i]), x.waiting[..i] + x.waiting[i + 1..], x.called, x.ran + [x.waiting[i]])
  }

  function Run<S>(x: State<S>, ops: seq<Op<S>>): State<S>
    decreases |ops|
  {
    if ops == [] then x else Run(After(x, ops[0]), ops[1..])
  }

  // A hook that runs at once makes one step of the model of the whole node.
  lemma AtOnce<S>(n: Node<S>, s: S, c: string)
    ensures Run(Start(n), [Add(s, c), RunHook(0)]).node == HubAdd(n, s, c)
    ensures Run(Start(n), [Remove(s, c), RunHook(0)]).node == HubRemove(n, s, c)
  {
    var added, removed := After(Start(n), Op.Add(s, c)), After(Start(n), Op.Remove(s, c));
    TwoOps(Start(n), Op.Add(s, c), RunHook(0));
    TwoOps(Start(n), Op.Remove(s, c), RunHook(0));
    hide Run, EnsureSubscribed, EnsureUnsubscribed;
    assert added.waiting == (if c in n.hub then [] else [First(c)]);
    assert After(added, RunHook(0)).node == HubAdd(n, s, c);
    assert After(removed, RunHook(0)).node == HubRemove(n, s, c);
  }

  lemma TwoOps<S>(x: State<S>, a: Op<S>, b: Op<S>)
    ensures Run(x, [a, b]) == After(After(x, a), b)
  {
    hide After;
    assert [a, b][1..] == [b] && [b][1..] == [];
    assert Run(After(x, a), [b]) == After(After(x, a), b);
  }

  // What the last of these hooks says of a channel: it has a subscriber, or none.
  function Says(hooks: seq<Hook>, channel: string, before: bool): bool {
    if hooks == [] then before
    else
      var hook := hooks[|hooks| - 1];
      if hook.channel == channel then hook.First? else Says(hooks[..|hooks| - 1], channel, before)
  }

  lemma SaysMore(hooks: seq<Hook>, hook: Hook, channel: string, before: bool)
    ensures Says(hooks + [hook], channel, before) == if hook.channel == channel then hook.First? else Says(hooks, channel, before)
  {
    assert (hooks + [hook])[..|hooks|] == hooks;
  }

  // The hub has the channels that the hooks called last say, the bridge those that
  // the hooks run last say.
  ghost predicate Follows<S>(x: State<S>, n: Node<S>) {
    forall c :: (c in x.node.hub <==> Says(x.called, c, c in n.hub)) && (c in x.node.subscribed <==> Says(x.ran, c, c in n.subscribed))
  }

  lemma FollowsAfter<S>(x: State<S>, n: Node<S>, op: Op<S>)
    requires Follows(x, n)
    ensures Follows(After(x, op), n)
  {
    hide Says;
    var y := After(x, op);
    forall c ensures (c in y.node.hub <==> Says(y.called, c, c in n.hub))
                  && (c in y.node.subscribed <==> Says(y.ran, c, c in n.subscribed))
    {
      assert (c in x.node.hub <==> Says(x.called, c, c in n.hub)) && (c in x.node.subscribed <==> Says(x.ran, c, c in n.subscribed));
      if |y.called| > |x.called| { SaysMore(x.called, y.called[|x.called|], c, c in n.hub); }
      if |y.ran| > |x.ran| { SaysMore(x.ran, y.ran[|x.ran|], c, c in n.subscribed); }
    }
  }

  lemma {:induction false} FollowsRun<S>(x: State<S>, n: Node<S>, ops: seq<Op<S>>)
    requires Follows(x, n)
    ensures Follows(Run(x, ops), n)
    decreases |ops|
  {
    hide Follows, After;
    if ops != [] {
      FollowsAfter(x, n, ops[0]);
      FollowsRun(After(x, ops[0]), n, ops[1..]);
    }
  }

  // Hub and bridge agree, at any moment of any interleaving, exactly if for each
  // channel the hook that ran last is of the kind of the hook that was called last.
  lemma AgreeExactly<S>(n: Node<S>, ops: seq<Op<S>>)
    requires n.subscribed == n.hub.Keys
    ensures
      var x := Run(Start(n), ops);
      x.node.subscribed == x.node.hub.Keys <==> forall c :: Says(x.ran, c, c in n.hub) == Says(x.called, c, c in n.hub)
  {
    hide Says, After;
    FollowsRun(Start(n), n, ops) by { assert Follows(Start(n), n) by { NothingSaid(n); } }
    var x := Run(Start(n), ops);
    hide Run;
    assert forall c :: (c in x.node.hub <==> Says(x.called, c, c in n.hub)) && (c in x.node.subscribed <==> Says(x.ran, c, c in n.hub));
    if forall c :: Says(x.ran, c, c in n.hub) == Says(x.called, c, c in n.hub) {
      forall c ensures c in x.node.subscribed <==> c in x.node.hub.Keys { }
    }
  }

  lemma NothingSaid<S>(n: Node<S>)
    ensures Follows(Start(n), n)
  {
  }

  lemma Overtaken<S>(x: State<S>)
    requires x.waiting == [Last("c"), First("c")] && x.node.subscribed == {"c"}
    ensures var y := After(After(x, RunHook(1)), RunHook(0));
      y.waiting == [] && y.node.hub == x.node.hub && y.node.subscribed == {}
  {
    var y := After(x, RunHook(1));
    assert y.waiting == [Last("c")] && y.node == x.node;
  }

  // The hook of a last Remove runs behind that of the next first Add: the bridge has
  // given up a channel that has a subscriber, and no hook waits.
  lemma OutOfOrder()
    ensures
      var n := NewNode<int>().(hub := map["c" := {1}], subscribed := {"c"});
      var x := Run(Start(n), [Remove(1, "c"), Add(2, "c"), RunHook(1), RunHook(0)]);
      x.waiting == [] && x.node.hub == map["c" := {2}] && x.node.subscribed == {}
  {
    var n := NewNode<int>().(hub := map["c" := {1}], subscribed := {"c"});
    var a, b, c, d := Op.Remove(1, "c"), Op.Add(2, "c"), Op<int>.RunHook(1), Op<int>.RunHook(0);
    var x1, x2 := After(Start(n), a), After(After(Start(n), a), b);
    assert x1.node.hub == map[] && x1.waiting == [Last("c")];
    assert {} + {2} == {2} && Subscribers(x1.node, "c") == {};
    assert x2.node.hub == map["c" := {2}] && x2.waiting == [Last("c"), First("c")] && x2.node.subscribed == {"c"};
    hide After;
    Overtaken(x2);
    TwoOps(x2, c, d);
    var x4 := After(After(x2, c), d);
    assert [a, b, c, d][1..] == [b, c, d] && [b, c, d][1..] == [c, d];
    assert Run(x1, [b, c, d]) == x4;
  }
}
