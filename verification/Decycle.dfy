// sc-errors' decycle: a copy of an object graph in which every object occurs once
// and every other reference to it is the path of that occurrence.
module Decycle {
  import opened Prelude

  type Id = nat

  // Boxed scalars, dates and regular expressions are copied as they are, too.
  datatype Value = Scalar(text: string) | Ref(id: Id)
  datatype Step = Index(index: nat) | Key(name: string)
  datatype Child = Child(step: Step, value: Value)
  datatype Node = Node(isArray: bool, children: seq<Child>)

  type Heap = map<Id, Node>
  type Path = seq<Step>

  ghost predicate Graph(h: Heap) {
    forall id | id in h ::
      && (forall i | 0 <= i < |h[id].children| :: h[id].children[i].value.Ref? ==> h[id].children[i].value.id in h)
      && (forall i, j | 0 <= i < j < |h[id].children| :: h[id].children[i].step != h[id].children[j].step)
  }

  datatype Tree = Leaf(text: string) | BackRef(path: Path) | Copy(isArray: bool, children: seq<Branch>)
  datatype Branch = Branch(step: Step, tree: Tree)

  // `objects` and `paths`, the two tables that grow in step.
  datatype Tables = Tables(objects: seq<Id>, paths: seq<Path>)

  function Position(objects: seq<Id>, id: Id): (i: nat)
    ensures i <= |objects| && (i < |objects| <==> id in objects)
    ensures i < |objects| ==> objects[i] == id
    ensures forall j | 0 <= j < i :: objects[j] != id
  {
    if objects == [] then 0 else if objects[0] == id then 0 else 1 + Position(objects[1..], id)
  }

  function Seen(t: Tables): set<Id> { set id | id in t.objects }

  function Unseen(h: Heap, t: Tables): nat { |h.Keys - Seen(t)| }

  ghost predicate Extends(t: Tables, u: Tables) {
    t.objects <= u.objects && t.paths <= u.paths
  }

  lemma UnseenShrinks(h: Heap, t: Tables, u: Tables)
    requires t.objects <= u.objects
    ensures Unseen(h, u) <= Unseen(h, t)
    ensures (exists id :: id in u.objects && id !in t.objects && id in h) ==> Unseen(h, u) < Unseen(h, t)
  {
    assert h.Keys - Seen(u) <= h.Keys - Seen(t);
    SubsetSize(h.Keys - Seen(u), h.Keys - Seen(t));
    if id :| id in u.objects && id !in t.objects && id in h {
      assert id in h.Keys - Seen(t) && id !in h.Keys - Seen(u);
    }
  }

  lemma {:induction false} SubsetSize(a: set<Id>, b: set<Id>)
    requires a <= b
    ensures |a| <= |b| && (a != b ==> |a| < |b|)
  {
    if a != {} {
      var x :| x in a;
      SubsetSize(a - {x}, b - {x});
    }
  }

  // derez
  function DerezOne(h: Heap, value: Value, path: Path, t: Tables): (r: (Tree, Tables))
    requires Graph(h) && |t.objects| == |t.paths| && (value.Ref? ==> value.id in h)
    ensures Extends(t, r.1) && |r.1.objects| == |r.1.paths|
    decreases Unseen(h, t), 0
  {
    match value
    case Scalar(text) => (Leaf(text), t)
    case Ref(id) =>
      if id in t.objects then (BackRef(t.paths[Position(t.objects, id)]), t)
      else
        var u := Tables(t.objects + [id], t.paths + [path]);
        assert id in u.objects && id !in t.objects;
        UnseenShrinks(h, t, u);
        var (branches, v) := DerezAll(h, h[id].children, path, u);
        (Copy(h[id].isArray, branches), v)
  }

  function DerezAll(h: Heap, cs: seq<Child>, path: Path, t: Tables): (r: (seq<Branch>, Tables))
    requires Graph(h) && |t.objects| == |t.paths|
    requires forall i | 0 <= i < |cs| :: cs[i].value.Ref? ==> cs[i].value.id in h
    ensures Extends(t, r.1) && |r.1.objects| == |r.1.paths|
    decreases Unseen(h, t), |cs| + 1
  {
    if cs == [] then ([], t)
    else
      var (tree, u) := DerezOne(h, cs[0].value, path + [cs[0].step], t);
      UnseenShrinks(h, t, u);
      var (branches, v) := DerezAll(h, cs[1..], path, u);
      ([Branch(cs[0].step, tree)] + branches, v)
  }

  const NO_TABLES := Tables([], [])

  function Decycled(h: Heap, root: Value): (Tree, Tables)
    requires Graph(h) && (root.Ref? ==> root.id in h)
  {
    DerezOne(h, root, [], NO_TABLES)
  }

  // ---- what the copy means -------------------------------------------------

  // Walking a path in the original graph.
  function Follow(h: Heap, v: Value, path: Path): Option<Value>
    decreases path
  {
    if path == [] then Some(v)
    else if v.Scalar? || v.id !in h then None
    else
      var i := ChildAt(h[v.id].children, path[0]);
      if i < |h[v.id].children| then Follow(h, h[v.id].children[i].value, path[1..]) else None
  }

  function ChildAt(cs: seq<Child>, step: Step): (i: nat)
    ensures i <= |cs| && (i < |cs| ==> cs[i].step == step)
    ensures forall j | 0 <= j < i :: cs[j].step != step
  {
    if cs == [] || cs[0].step == step then 0 else 1 + ChildAt(cs[1..], step)
  }

  // Walking a path in the copy.
  function TreeAt(tree: Tree, path: Path): Option<Tree> {
    if path == [] then Some(tree)
    else if !tree.Copy? then None
    else
      var i := BranchAt(tree.children, path[0]);
      if i < |tree.children| then TreeAt(tree.children[i].tree, path[1..]) else None
  }

  function BranchAt(bs: seq<Branch>, step: Step): (i: nat)
    ensures i <= |bs| && (i < |bs| ==> bs[i].step == step)
    ensures forall j | 0 <= j < i :: bs[j].step != step
  {
    if bs == [] || bs[0].step == step then 0 else 1 + BranchAt(bs[1..], step)
  }

  ghost predicate Recorded(t: Tables, id: Id, path: Path) {
    |t.objects| == |t.paths| && exists i | 0 <= i < |t.objects| :: t.objects[i] == id && t.paths[i] == path
  }

  // `tree` is a copy of `v`; its back references are entries of the tables.
  ghost predicate Copies(h: Heap, t: Tables, v: Value, tree: Tree)
    decreases tree
  {
    match tree
    case Leaf(text) => v == Scalar(text)
    case BackRef(path) => v.Ref? && Recorded(t, v.id, path)
    case Copy(isArray, bs) =>
      v.Ref? && v.id in h && h[v.id].isArray == isArray && |bs| == |h[v.id].children|
      && forall i | 0 <= i < |bs| ::
           bs[i].step == h[v.id].children[i].step && Copies(h, t, h[v.id].children[i].value, bs[i].tree)
  }

  ghost predicate AllCopies(h: Heap, t: Tables, cs: seq<Child>, bs: seq<Branch>) {
    |bs| == |cs| && forall i | 0 <= i < |bs| :: bs[i].step == cs[i].step && Copies(h, t, cs[i].value, bs[i].tree)
  }

  // Every recorded path leads from the root to its object, which is recorded once.
  ghost predicate Sound(h: Heap, root: Value, t: Tables) {
    && |t.objects| == |t.paths|
    && (forall i | 0 <= i < |t.objects| :: Follow(h, root, t.paths[i]) == Some(Ref(t.objects[i])))
    && (forall i, j | 0 <= i < j < |t.objects| :: t.objects[i] != t.objects[j])
  }

  lemma {:induction false} FollowStep(h: Heap, v: Value, path: Path, id: Id, i: nat)
    requires Graph(h) && id in h && i < |h[id].children|
    requires Follow(h, v, path) == Some(Ref(id))
    ensures Follow(h, v, path + [h[id].children[i].step]) == Some(h[id].children[i].value)
    decreases path
  {
    var step := h[id].children[i].step;
    if path == [] {
      assert (path + [step])[1..] == [];
      assert ChildAt(h[id].children, step) == i;
    } else {
      var next := h[v.id].children[ChildAt(h[v.id].children, path[0])].value;
      FollowStep(h, next, path[1..], id, i);
      assert (path + [step])[1..] == path[1..] + [step];
    }
  }

  lemma {:induction false} CopiesExtend(h: Heap, t: Tables, u: Tables, v: Value, tree: Tree)
    requires Copies(h, t, v, tree) && Extends(t, u) && |u.objects| == |u.paths|
    ensures Copies(h, u, v, tree)
    decreases tree
  {
    match tree
    case Leaf(_) =>
    case BackRef(path) =>
      var i :| 0 <= i < |t.objects| && t.objects[i] == v.id && t.paths[i] == path;
      assert u.objects[i] == v.id && u.paths[i] == path;
    case Copy(_, bs) =>
      forall i | 0 <= i < |bs| ensures Copies(h, u, h[v.id].children[i].value, bs[i].tree) {
        CopiesExtend(h, t, u, h[v.id].children[i].value, bs[i].tree);
      }
  }

  // Where a value is met, and how it is to be met: along a path from the root.
  ghost predicate Reaches(h: Heap, root: Value, path: Path, cs: seq<Child>) {
    forall i | 0 <= i < |cs| :: Follow(h, root, path + [cs[i].step]) == Some(cs[i].value)
  }

  lemma {:induction false} DerezCopies(h: Heap, root: Value, value: Value, path: Path, t: Tables)
    requires Graph(h) && Sound(h, root, t) && (value.Ref? ==> value.id in h)
    requires Follow(h, root, path) == Some(value)
    ensures var (tree, u) := DerezOne(h, value, path, t); Sound(h, root, u) && Copies(h, u, value, tree)
    decreases Unseen(h, t), 0
  {
    assert |t.objects| == |t.paths|;
    hide DerezAll, Follow, Sound, AllCopies, Copies;
    if value.Ref? && value.id !in t.objects {
      var id := value.id;
      var u := Tables(t.objects + [id], t.paths + [path]);
      SoundPush(h, root, id, path, t);
      assert id in u.objects && id !in t.objects;
      UnseenShrinks(h, t, u);
      ReachesChildren(h, root, path, id);
      DerezAllCopies(h, root, h[id].children, path, u);
      var (branches, v) := DerezAll(h, h[id].children, path, u);
      CopyOf(h, v, id, branches);
    } else if value.Ref? {
      BackRefOf(h, t, value.id);
    } else {
      assert Copies(h, t, value, Leaf(value.text)) by { LeafOf(h, t, value.text); }
    }
  }

  lemma CopyOf(h: Heap, t: Tables, id: Id, branches: seq<Branch>)
    requires id in h && AllCopies(h, t, h[id].children, branches)
    ensures Copies(h, t, Ref(id), Copy(h[id].isArray, branches))
  {
  }

  lemma BackRefOf(h: Heap, t: Tables, id: Id)
    requires id in t.objects && |t.objects| == |t.paths|
    ensures Copies(h, t, Ref(id), BackRef(t.paths[Position(t.objects, id)]))
  {
    var i := Position(t.objects, id);
    assert t.objects[i] == id && t.paths[i] == t.paths[Position(t.objects, id)];
  }

  lemma LeafOf(h: Heap, t: Tables, text: string)
    ensures Copies(h, t, Scalar(text), Leaf(text))
  {
  }

  lemma SoundPush(h: Heap, root: Value, id: Id, path: Path, t: Tables)
    requires Sound(h, root, t) && id !in t.objects && Follow(h, root, path) == Some(Ref(id))
    ensures Sound(h, root, Tables(t.objects + [id], t.paths + [path]))
  {
  }

  lemma ReachesChildren(h: Heap, root: Value, path: Path, id: Id)
    requires Graph(h) && id in h && Follow(h, root, path) == Some(Ref(id))
    ensures Reaches(h, root, path, h[id].children)
  {
    forall i | 0 <= i < |h[id].children|
      ensures Follow(h, root, path + [h[id].children[i].step]) == Some(h[id].children[i].value)
    {
      FollowStep(h, root, path, id, i);
    }
  }

  lemma {:induction false} DerezAllCopies(h: Heap, root: Value, cs: seq<Child>, path: Path, t: Tables)
    requires Graph(h) && Sound(h, root, t)
    requires forall i | 0 <= i < |cs| :: cs[i].value.Ref? ==> cs[i].value.id in h
    requires Reaches(h, root, path, cs)
    ensures var (bs, u) := DerezAll(h, cs, path, t); Sound(h, root, u) && AllCopies(h, u, cs, bs)
    decreases Unseen(h, t), |cs| + 1
  {
    assert |t.objects| == |t.paths|;
    hide DerezOne, Follow, Copies, Sound, Graph;
    if cs != [] {
      var (tree, u) := DerezOne(h, cs[0].value, path + [cs[0].step], t);
      UnseenShrinks(h, t, u);
      DerezCopies(h, root, cs[0].value, path + [cs[0].step], t);
      ReachesTail(h, root, path, cs);
      DerezAllCopies(h, root, cs[1..], path, u);
      var (bs, v) := DerezAll(h, cs[1..], path, u);
      CopiesExtend(h, u, v, cs[0].value, tree);
      AllCopiesCons(h, v, cs, tree, bs);
    }
  }

  lemma ReachesTail(h: Heap, root: Value, path: Path, cs: seq<Child>)
    requires cs != [] && Reaches(h, root, path, cs)
    ensures Reaches(h, root, path, cs[1..])
  {
    forall i | 0 <= i < |cs[1..]| ensures Follow(h, root, path + [cs[1..][i].step]) == Some(cs[1..][i].value) {
      assert cs[1..][i] == cs[i + 1];
    }
  }

  lemma AllCopiesCons(h: Heap, t: Tables, cs: seq<Child>, tree: Tree, bs: seq<Branch>)
    requires cs != [] && Copies(h, t, cs[0].value, tree) && AllCopies(h, t, cs[1..], bs)
    ensures AllCopies(h, t, cs, [Branch(cs[0].step, tree)] + bs)
  {
    var all := [Branch(cs[0].step, tree)] + bs;
    forall i | 0 <= i < |all| ensures all[i].step == cs[i].step && Copies(h, t, cs[i].value, all[i].tree) {
      if i > 0 { assert all[i] == bs[i - 1] && cs[i] == cs[1..][i - 1]; }
    }
  }

  // ---- every object once ---------------------------------------------------

  function Count(tree: Tree): nat
    decreases tree
  {
    match tree
    case Copy(_, bs) => 1 + CountAll(bs)
    case _ => 0
  }

  function CountAll(bs: seq<Branch>): nat
    decreases bs
  {
    if bs == [] then 0
    else
      assert bs[0].tree < bs[0];
      Count(bs[0].tree) + CountAll(bs[1..])
  }

  // The number of copies made is the number of objects recorded.
  lemma {:induction false} DerezCounts(h: Heap, value: Value, path: Path, t: Tables)
    requires Graph(h) && |t.objects| == |t.paths| && (value.Ref? ==> value.id in h)
    ensures var (tree, u) := DerezOne(h, value, path, t); |u.objects| == |t.objects| + Count(tree)
    decreases Unseen(h, t), 0
  {
    if value.Ref? && value.id !in t.objects {
      var u := Tables(t.objects + [value.id], t.paths + [path]);
      assert value.id in u.objects && value.id !in t.objects;
      UnseenShrinks(h, t, u);
      DerezAllCounts(h, h[value.id].children, path, u);
    }
  }

  lemma {:induction false} DerezAllCounts(h: Heap, cs: seq<Child>, path: Path, t: Tables)
    requires Graph(h) && |t.objects| == |t.paths|
    requires forall i | 0 <= i < |cs| :: cs[i].value.Ref? ==> cs[i].value.id in h
    ensures var (bs, u) := DerezAll(h, cs, path, t); |u.objects| == |t.objects| + CountAll(bs)
    decreases Unseen(h, t), |cs| + 1
  {
    if cs != [] {
      var (tree, u) := DerezOne(h, cs[0].value, path + [cs[0].step], t);
      UnseenShrinks(h, t, u);
      DerezCounts(h, cs[0].value, path + [cs[0].step], t);
      DerezAllCounts(h, cs[1..], path, u);
    }
  }

  // Whatever the objects recorded between `t` and `u` refer to is recorded too.
  ghost predicate Closed(h: Heap, t: Tables, u: Tables) {
    forall id | id in u.objects && id !in t.objects ::
      id in h && forall i | 0 <= i < |h[id].children| ::
        h[id].children[i].value.Ref? ==> h[id].children[i].value.id in u.objects
  }

  lemma {:induction false} DerezCloses(h: Heap, value: Value, path: Path, t: Tables)
    requires Graph(h) && |t.objects| == |t.paths| && (value.Ref? ==> value.id in h)
    ensures var u := DerezOne(h, value, path, t).1; Closed(h, t, u) && (value.Ref? ==> value.id in u.objects)
    decreases Unseen(h, t), 0
  {
    ClosedNothing(h, t);
    hide Closed, DerezAll;
    if value.Ref? && value.id !in t.objects {
      var u := Tables(t.objects + [value.id], t.paths + [path]);
      assert value.id in u.objects && value.id !in t.objects;
      UnseenShrinks(h, t, u);
      DerezAllCloses(h, h[value.id].children, path, u);
      ClosedPush(h, t, value.id, u, DerezAll(h, h[value.id].children, path, u).1);
    }
  }

  lemma {:induction false} DerezAllCloses(h: Heap, cs: seq<Child>, path: Path, t: Tables)
    requires Graph(h) && |t.objects| == |t.paths|
    requires forall i | 0 <= i < |cs| :: cs[i].value.Ref? ==> cs[i].value.id in h
    ensures
      var u := DerezAll(h, cs, path, t).1;
      Closed(h, t, u) && forall i | 0 <= i < |cs| :: cs[i].value.Ref? ==> cs[i].value.id in u.objects
    decreases Unseen(h, t), |cs| + 1
  {
    ClosedNothing(h, t);
    hide DerezOne, Closed, Graph;
    if cs != [] {
      var u := DerezOne(h, cs[0].value, path + [cs[0].step], t).1;
      UnseenShrinks(h, t, u);
      DerezCloses(h, cs[0].value, path + [cs[0].step], t);
      DerezAllCloses(h, cs[1..], path, u);
      var v := DerezAll(h, cs[1..], path, u).1;
      ClosedTogether(h, t, u, v);
      forall i | 0 <= i < |cs| && cs[i].value.Ref? ensures cs[i].value.id in v.objects {
        if i > 0 { assert cs[i] == cs[1..][i - 1]; }
      }
    }
  }

  lemma ClosedTogether(h: Heap, t: Tables, u: Tables, v: Tables)
    requires Closed(h, t, u) && Closed(h, u, v) && u.objects <= v.objects
    ensures Closed(h, t, v)
  {
  }

  lemma ClosedNothing(h: Heap, t: Tables)
    ensures Closed(h, t, t)
  {
  }

  lemma ClosedPush(h: Heap, t: Tables, id: Id, u: Tables, v: Tables)
    requires u.objects == t.objects + [id] && Closed(h, u, v) && id in h
    requires forall i | 0 <= i < |h[id].children| ::
      h[id].children[i].value.Ref? ==> h[id].children[i].value.id in v.objects
    ensures Closed(h, t, v)
  {
  }

  ghost predicate Reachable(h: Heap, root: Value, id: Id) {
    exists path :: Follow(h, root, path) == Some(Ref(id))
  }

  lemma {:induction false} ReachableRecorded(h: Heap, v: Value, path: Path, u: Tables, id: Id)
    requires Closed(h, NO_TABLES, u) && (v.Ref? ==> v.id in u.objects)
    requires Follow(h, v, path) == Some(Ref(id))
    ensures id in u.objects
    decreases path
  {
    if path != [] {
      var i := ChildAt(h[v.id].children, path[0]);
      ReachableRecorded(h, h[v.id].children[i].value, path[1..], u, id);
    }
  }

  // Each reachable object is expanded exactly once, and nothing else is: the
  // objects expanded are distinct, they are the reachable ones, each has a copy of its
  // own at a path of its own that leads to it, and there are no more copies.
  lemma ExpandsEachOnce(h: Heap, root: Value)
    requires Graph(h) && (root.Ref? ==> root.id in h)
    ensures
      var (tree, t) := Decycled(h, root);
      && Count(tree) == |t.objects|
      && (forall i, j | 0 <= i < j < |t.objects| :: t.objects[i] != t.objects[j])
      && (forall id :: id in t.objects <==> Reachable(h, root, id))
      && |t.paths| == |t.objects|
      && (forall i | 0 <= i < |t.objects| ::
            Follow(h, root, t.paths[i]) == Some(Ref(t.objects[i]))
            && TreeAt(tree, t.paths[i]).Some? && TreeAt(tree, t.paths[i]).value.Copy?)
      && (forall i, j | 0 <= i < j < |t.paths| :: t.paths[i] != t.paths[j])
  {
    var (tree, t) := Decycled(h, root);
    OwnCopies(h, root);
    DerezCounts(h, root, [], NO_TABLES);
    DerezCopies(h, root, root, [], NO_TABLES);
    DerezCloses(h, root, [], NO_TABLES);
    forall id ensures id in t.objects <==> Reachable(h, root, id) {
      if id in t.objects {
        var i :| 0 <= i < |t.objects| && t.objects[i] == id;
        assert Follow(h, root, t.paths[i]) == Some(Ref(id));
      }
      if Reachable(h, root, id) {
        var path :| Follow(h, root, path) == Some(Ref(id));
        ReachableRecorded(h, root, path, t, id);
      }
    }
  }

  // ---- what a $ref leads to ------------------------------------------------

  ghost predicate LeadsToCopy(tree: Tree, path: Path, p: Path) {
    exists suffix :: p == path + suffix && TreeAt(tree, suffix).Some? && TreeAt(tree, suffix).value.Copy?
  }

  ghost predicate OneLeadsToCopy(bs: seq<Branch>, path: Path, p: Path) {
    exists j | 0 <= j < |bs| :: LeadsToCopy(bs[j].tree, path + [bs[j].step], p)
  }

  // The paths recorded between `t` and `u` lead to the copies made meanwhile.
  ghost predicate Placed(tree: Tree, path: Path, t: Tables, u: Tables) {
    forall k | |t.paths| <= k < |u.paths| :: LeadsToCopy(tree, path, u.paths[k])
  }

  ghost predicate AllPlaced(bs: seq<Branch>, path: Path, t: Tables, u: Tables) {
    forall k | |t.paths| <= k < |u.paths| :: OneLeadsToCopy(bs, path, u.paths[k])
  }

  lemma BranchLeads(isArray: bool, bs: seq<Branch>, path: Path, p: Path)
    requires forall i, j | 0 <= i < j < |bs| :: bs[i].step != bs[j].step
    requires OneLeadsToCopy(bs, path, p)
    ensures LeadsToCopy(Copy(isArray, bs), path, p)
  {
    var j :| 0 <= j < |bs| && LeadsToCopy(bs[j].tree, path + [bs[j].step], p);
    var suffix :| p == path + [bs[j].step] + suffix && TreeAt(bs[j].tree, suffix).Some? && TreeAt(bs[j].tree, suffix).value.Copy?;
    var longer := [bs[j].step] + suffix;
    assert BranchAt(bs, longer[0]) == j && longer[1..] == suffix && longer != [];
    assert TreeAt(Copy(isArray, bs), longer) == TreeAt(bs[j].tree, suffix) by { hide LeadsToCopy; }
    assert p == path + longer;
  }

  lemma StepsKept(h: Heap, cs: seq<Child>, path: Path, t: Tables)
    requires Graph(h) && |t.objects| == |t.paths|
    requires forall i | 0 <= i < |cs| :: cs[i].value.Ref? ==> cs[i].value.id in h
    ensures
      var bs := DerezAll(h, cs, path, t).0;
      |bs| == |cs| && forall i | 0 <= i < |cs| :: bs[i].step == cs[i].step
    decreases cs
  {
    hide Graph;
    if cs != [] {
      var (tree, u) := DerezOne(h, cs[0].value, path + [cs[0].step], t);
      StepsKept(h, cs[1..], path, u);
    }
  }

  lemma {:induction false} DerezPlaces(h: Heap, value: Value, path: Path, t: Tables)
    requires Graph(h) && |t.objects| == |t.paths| && (value.Ref? ==> value.id in h)
    ensures var (tree, u) := DerezOne(h, value, path, t); Placed(tree, path, t, u)
    decreases Unseen(h, t), 0
  {
    hide DerezAll, LeadsToCopy;
    if value.Ref? && value.id !in t.objects {
      var u := Tables(t.objects + [value.id], t.paths + [path]);
      assert value.id in u.objects && value.id !in t.objects;
      UnseenShrinks(h, t, u);
      var cs := h[value.id].children;
      DerezAllPlaces(h, cs, path, u);
      StepsKept(h, cs, path, u);
      var (bs, v) := DerezAll(h, cs, path, u);
      RootLeads(h[value.id].isArray, bs, path);
      forall k | |t.paths| <= k < |v.paths| ensures LeadsToCopy(Copy(h[value.id].isArray, bs), path, v.paths[k]) {
        if k > |t.paths| {
          assert OneLeadsToCopy(bs, path, v.paths[k]);
          BranchLeads(h[value.id].isArray, bs, path, v.paths[k]);
        } else {
          assert v.paths[k] == u.paths[k] == path;
        }
      }
    }
  }

  lemma RootLeads(isArray: bool, bs: seq<Branch>, path: Path)
    ensures LeadsToCopy(Copy(isArray, bs), path, path)
  {
    assert path == path + [] && TreeAt(Copy(isArray, bs), []) == Some(Copy(isArray, bs));
  }

  lemma {:induction false} DerezAllPlaces(h: Heap, cs: seq<Child>, path: Path, t: Tables)
    requires Graph(h) && |t.objects| == |t.paths|
    requires forall i | 0 <= i < |cs| :: cs[i].value.Ref? ==> cs[i].value.id in h
    ensures var (bs, u) := DerezAll(h, cs, path, t); AllPlaced(bs, path, t, u)
    decreases Unseen(h, t), |cs| + 1
  {
    hide DerezOne, LeadsToCopy, Graph;
    if cs != [] {
      var (tree, u) := DerezOne(h, cs[0].value, path + [cs[0].step], t);
      UnseenShrinks(h, t, u);
      DerezPlaces(h, cs[0].value, path + [cs[0].step], t);
      DerezAllPlaces(h, cs[1..], path, u);
      var (bs, v) := DerezAll(h, cs[1..], path, u);
      PlacedCons(cs[0].step, tree, bs, path, t, u, v);
    }
  }

  lemma PlacedCons(step: Step, tree: Tree, bs: seq<Branch>, path: Path, t: Tables, u: Tables, v: Tables)
    requires Placed(tree, path + [step], t, u) && AllPlaced(bs, path, u, v) && u.paths <= v.paths
    ensures AllPlaced([Branch(step, tree)] + bs, path, t, v)
  {
    hide LeadsToCopy;
    var all := [Branch(step, tree)] + bs;
    forall k | |t.paths| <= k < |v.paths| ensures OneLeadsToCopy(all, path, v.paths[k]) {
      if k < |u.paths| {
        assert v.paths[k] == u.paths[k] && LeadsToCopy(all[0].tree, path + [all[0].step], u.paths[k]);
      } else {
        assert OneLeadsToCopy(bs, path, v.paths[k]);
        var j :| 0 <= j < |bs| && LeadsToCopy(bs[j].tree, path + [bs[j].step], v.paths[k]);
        assert all[j + 1] == bs[j];
      }
    }
  }

  lemma {:induction false} SameIndex(cs: seq<Child>, bs: seq<Branch>, step: Step)
    requires |bs| == |cs| && forall i | 0 <= i < |bs| :: bs[i].step == cs[i].step
    ensures BranchAt(bs, step) == ChildAt(cs, step)
  {
    var i, j := BranchAt(bs, step), ChildAt(cs, step);
    assert i < |bs| ==> cs[i].step == step;
  }

  lemma {:induction false} CopyFollows(h: Heap, t: Tables, v: Value, tree: Tree, path: Path)
    requires Copies(h, t, v, tree) && TreeAt(tree, path).Some?
    ensures Follow(h, v, path).Some? && Copies(h, t, Follow(h, v, path).value, TreeAt(tree, path).value)
    decreases path
  {
    if path != [] {
      SameIndex(h[v.id].children, tree.children, path[0]);
      var i := BranchAt(tree.children, path[0]);
      CopyFollows(h, t, h[v.id].children[i].value, tree.children[i].tree, path[1..]);
    }
  }

  lemma OwnCopies(h: Heap, root: Value)
    requires Graph(h) && (root.Ref? ==> root.id in h)
    ensures
      var (tree, t) := Decycled(h, root);
      && |t.paths| == |t.objects|
      && forall i | 0 <= i < |t.paths| :: TreeAt(tree, t.paths[i]).Some? && TreeAt(tree, t.paths[i]).value.Copy?
  {
    var (tree, t) := Decycled(h, root);
    DerezPlaces(h, root, [], NO_TABLES);
    forall i | 0 <= i < |t.paths| ensures TreeAt(tree, t.paths[i]).Some? && TreeAt(tree, t.paths[i]).value.Copy? {
      assert LeadsToCopy(tree, [], t.paths[i]);
      var suffix :| t.paths[i] == [] + suffix && TreeAt(tree, suffix).Some? && TreeAt(tree, suffix).value.Copy?;
      assert suffix == t.paths[i];
    }
  }

  // Wherever the copy has a $ref, following its path from the root of the original
  // reaches the very object that stood there, and the same path in the copy leads
  // to its expansion.
  lemma RefsResolve(h: Heap, root: Value, at: Path, path: Path)
    requires Graph(h) && (root.Ref? ==> root.id in h)
    requires TreeAt(Decycled(h, root).0, at) == Some(BackRef(path))
    ensures Follow(h, root, at).Some? && Follow(h, root, at).value.Ref?
    ensures Follow(h, root, path) == Follow(h, root, at)
    ensures TreeAt(Decycled(h, root).0, path).Some? && TreeAt(Decycled(h, root).0, path).value.Copy?
  {
    var (tree, t) := Decycled(h, root);
    DerezCopies(h, root, root, [], NO_TABLES);
    CopyFollows(h, t, root, tree, at);
    var id := Follow(h, root, at).value.id;
    var i :| 0 <= i < |t.objects| && t.objects[i] == id && t.paths[i] == path;
    OwnCopies(h, root);
  }

  // Everything else in the copy is what the original has in the same place.
  lemma CopyIsFaithful(h: Heap, root: Value, at: Path)
    requires Graph(h) && (root.Ref? ==> root.id in h)
    requires TreeAt(Decycled(h, root).0, at).Some?
    ensures
      var tree := TreeAt(Decycled(h, root).0, at).value;
      && Follow(h, root, at).Some?
      && (tree.Leaf? ==> Follow(h, root, at).value == Scalar(tree.text))
      && (tree.Copy? ==>
            var v := Follow(h, root, at).value;
            v.Ref? && v.id in h && h[v.id].isArray == tree.isArray && |h[v.id].children| == |tree.children|
            && forall i | 0 <= i < |tree.children| :: tree.children[i].step == h[v.id].children[i].step)
  {
    DerezCopies(h, root, root, [], NO_TABLES);
    CopyFollows(h, Decycled(h, root).1, root, Decycled(h, root).0, at);
  }

  // ---- the recursion over shared tables ------------------------------------

  class Decycler {
    const heap: Heap
    var objects: seq<Id>
    var paths: seq<Path>

    constructor (heap: Heap)
      ensures this.heap == heap && objects == [] && paths == []
    {
      this.heap, objects, paths := heap, [], [];
    }

    method Derez(value: Value, path: Path) returns (tree: Tree)
      requires Graph(heap) && |objects| == |paths| && (value.Ref? ==> value.id in heap)
      modifies this
      ensures (tree, Tables(objects, paths)) == DerezOne(heap, value, path, Tables(old(objects), old(paths)))
      decreases Unseen(heap, Tables(objects, paths)), 0
    {
      hide DerezAll, Graph;
      if value.Scalar? { return Leaf(value.text); }
      ghost var t := Tables(objects, paths);
      var i := 0;
      while i < |objects|
        invariant 0 <= i <= |objects|
        invariant value.id !in objects[..i]
      {
        if objects[i] == value.id {
          assert Position(objects, value.id) == i;
          return BackRef(paths[i]);
        }
        i := i + 1;
      }
      objects, paths := objects + [value.id], paths + [path];
      assert value.id in objects && value.id !in t.objects;
      UnseenShrinks(heap, t, Tables(objects, paths));
      assert forall i | 0 <= i < |heap[value.id].children| :: heap[value.id].children[i].value.Ref? ==> heap[value.id].children[i].value.id in heap by {
        GraphChildren(heap, value.id);
      }
      var branches := DerezChildren(heap[value.id].children, path);
      return Copy(heap[value.id].isArray, branches);
    }

    // The loop of derez over the members of one object.
    method DerezChildren(cs: seq<Child>, path: Path) returns (bs: seq<Branch>)
      requires Graph(heap) && |objects| == |paths|
      requires forall i | 0 <= i < |cs| :: cs[i].value.Ref? ==> cs[i].value.id in heap
      modifies this
      ensures (bs, Tables(objects, paths)) == DerezAll(heap, cs, path, Tables(old(objects), old(paths)))
      decreases Unseen(heap, Tables(objects, paths)), |cs| + 1
    {
      hide DerezOne, DerezAll, Graph;
      ghost var t := Tables(objects, paths);
      bs := [];
      var i := 0;
      assert cs[0..] == cs;
      BehindNothing(DerezAll(heap, cs, path, t));
      while i < |cs|
        invariant 0 <= i <= |cs| && |objects| == |paths| && t.objects <= objects
        invariant DerezAll(heap, cs, path, t) == Behind(bs, DerezAll(heap, cs[i..], path, Tables(objects, paths)))
      {
        UnseenShrinks(heap, t, Tables(objects, paths));
        DerezAllStep(heap, cs, i, path, Tables(objects, paths), bs);
        var tree := Derez(cs[i].value, path + [cs[i].step]);
        bs := bs + [Branch(cs[i].step, tree)];
        i := i + 1;
      }
      DerezAllEnd(heap, cs[i..], path, Tables(objects, paths), bs);
    }
  }

  // A result with `bs` in front of it.
  function Behind(bs: seq<Branch>, r: (seq<Branch>, Tables)): (seq<Branch>, Tables) {
    (bs + r.0, r.1)
  }

  lemma BehindNothing(r: (seq<Branch>, Tables))
    ensures Behind([], r) == r
  {
    assert [] + r.0 == r.0;
  }

  lemma DerezAllStep(h: Heap, cs: seq<Child>, i: nat, path: Path, t: Tables, bs: seq<Branch>)
    requires Graph(h) && |t.objects| == |t.paths| && i < |cs|
    requires forall i | 0 <= i < |cs| :: cs[i].value.Ref? ==> cs[i].value.id in h
    ensures
      var (tree, u) := DerezOne(h, cs[i].value, path + [cs[i].step], t);
      Behind(bs, DerezAll(h, cs[i..], path, t))
      == Behind(bs + [Branch(cs[i].step, tree)], DerezAll(h, cs[i + 1..], path, u))
  {
    hide DerezOne, Graph;
    var (tree, u) := DerezOne(h, cs[i].value, path + [cs[i].step], t);
    assert cs[i..][0] == cs[i] && cs[i..][1..] == cs[i + 1..];
    var rest := DerezAll(h, cs[i + 1..], path, u).0;
    assert bs + ([Branch(cs[i].step, tree)] + rest) == (bs + [Branch(cs[i].step, tree)]) + rest;
  }

  lemma DerezAllEnd(h: Heap, cs: seq<Child>, path: Path, t: Tables, bs: seq<Branch>)
    requires Graph(h) && |t.objects| == |t.paths| && cs == []
    ensures Behind(bs, DerezAll(h, cs, path, t)) == (bs, t)
  {
    assert bs + [] == bs;
  }

  lemma GraphChildren(h: Heap, id: Id)
    requires Graph(h) && id in h
    ensures forall i | 0 <= i < |h[id].children| :: h[id].children[i].value.Ref? ==> h[id].children[i].value.id in h
  {
  }
}
