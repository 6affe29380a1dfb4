// The doubly linked list of socketcluster.js that holds the client's emit buffer.
// An item knows its neighbours and its list; a list with one item has a null tail.
module LinkedList {

  class Item<T> {
    var next: Item?<T>
    var prev: Item?<T>
    var list: List?<T>
    const data: T

    constructor (data: T)
      ensures next == null && prev == null && list == null && this.data == data
    {
      this.next, this.prev, this.list, this.data := null, null, null, data;
    }

    // ListItem#detach. `at` says where an attached item stands in its list.
    method Detach(ghost at: nat)
      requires if list == null then next == null && prev == null else list.Valid() && list.Holds(at, this)
      modifies this, list, if list == null then [] else list.items
      ensures next == null && prev == null && list == null
      ensures old(list) != null ==> old(list).Valid() && old(list).items == Without(old(list.items), at)
    {
      hide Without;
      var l, p, n := list, prev, next;
      if l == null { return; }
      ghost var s := l.items;
      assert p == if at == 0 then null else s[at - 1];
      assert n == if at == |s| - 1 then null else s[at + 1];
      if l.tail == this { l.tail := p; }
      if l.head == this { l.head := n; }
      if l.tail == l.head { l.tail := null; }
      if p != null { p.next := n; }
      if n != null { n.prev := p; }
      prev, next, list := null, null, null;
      AfterWithout(s, at);
      l.items := Without(s, at);
    }

    // The item is detached, or stands at `from` in its list, which is not `other`.
    ghost predicate Movable(from: nat, other: List?<T>)
      reads this, list, if list == null then [] else list.items
    {
      if list == null then next == null && prev == null else list != other && list.Valid() && list.Holds(from, this)
    }

    // To detach an item does not touch a list that it is not in.
    method Leave(ghost other: List<T>, ghost from: nat)
      requires other.Valid() && Movable(from, other)
      modifies this, list, if list == null then [] else list.items
      ensures next == null && prev == null && list == null
      ensures old(list) != null ==> old(list).Valid() && old(list).items == Without(old(list.items), from)
      ensures unchanged(other, other.items) && other.Valid() && Apart(other, old(list))
      ensures old(list) != null ==> this !in old(list).items
    {
      hide Without;
      ghost var own := list;
      TwoLists(other, this, from);
      Detach(from);
      forall i | 0 <= i < |other.items| ensures unchanged(other.items[i]) {
        assert other.items[i] in other.items;
      }
      if own != null {
        Owned(own);
        forall i, j | 0 <= i < |other.items| && 0 <= j < |own.items| ensures other.items[i] != own.items[j] {
          assert other.items[i].list == other && own.items[j].list == own;
        }
      }
    }

    // ListItem#append: put `item`, taken out of its own list, right behind this one.
    method Append(item: Item<T>, ghost at: nat, ghost from: nat) returns (attached: bool)
      requires list != null ==> list.Valid() && list.Holds(at, this)
      requires item != this && item.Movable(from, list)
      modifies this, item, list, if list == null then [] else list.items
      modifies item.list, if item.list == null then [] else item.list.items
      ensures attached == (old(list) != null) && list == old(list)
      ensures attached ==> list.Valid() && list.items == Inserted(old(list.items), at + 1, item)
      ensures attached && old(item.list) != null ==>
        old(item.list).Valid() && old(item.list).items == Without(old(item.list.items), from)
      ensures !attached ==> unchanged(this, item) && (old(item.list) != null ==> unchanged(old(item.list), old(item.list.items)))
    {
      hide Inserted, Without;
      var l, n := list, next;
      if l == null { return false; }
      ghost var own := item.list;
      item.Leave(l, from);
      label Left:
      LinkBehind(item, l, n, at);
      if own != null {
        forall i | 0 <= i < |own.items| ensures unchanged@Left(own.items[i]) {
          assert own.items[i] in own.items;
        }
      }
      return true;
    }

    // The rest of append.
    method LinkBehind(item: Item<T>, l: List<T>, n: Item?<T>, ghost at: nat)
      requires l.Valid() && l.Holds(at, this) && n == next
      requires item.next == null && item.prev == null && item.list == null
      modifies item, l, l.items
      ensures l.Valid() && l.items == Inserted(old(l.items), at + 1, item) && list == l
    {
      hide Inserted;
      if n != null {
        item.next := n;
        n.prev := item;
      }
      item.prev := this;
      item.list := l;
      next := item;
      if this == l.tail || l.tail == null { l.tail := item; }
      AfterInserted(l.items, at + 1, item);
      l.items := Inserted(l.items, at + 1, item);
    }

    // ListItem#prepend: put `item`, taken out of its own list, right before this one.
    method Prepend(item: Item<T>, ghost at: nat, ghost from: nat) returns (attached: bool)
      requires list != null ==> list.Valid() && list.Holds(at, this)
      requires item != this && item.Movable(from, list)
      modifies this, item, list, if list == null then [] else list.items
      modifies item.list, if item.list == null then [] else item.list.items
      ensures attached == (old(list) != null) && list == old(list)
      ensures attached ==> list.Valid() && list.items == Inserted(old(list.items), at, item)
      ensures attached && old(item.list) != null ==>
        old(item.list).Valid() && old(item.list).items == Without(old(item.list.items), from)
      ensures !attached ==> unchanged(this, item) && (old(item.list) != null ==> unchanged(old(item.list), old(item.list.items)))
    {
      hide Inserted, Without;
      var l, p := list, prev;
      if l == null { return false; }
      ghost var own := item.list;
      item.Leave(l, from);
      label Left:
      LinkBefore(item, l, p, at);
      if own != null {
        forall i | 0 <= i < |own.items| ensures unchanged@Left(own.items[i]) {
          assert own.items[i] in own.items;
        }
      }
      return true;
    }

    // The rest of prepend.
    method LinkBefore(item: Item<T>, l: List<T>, p: Item?<T>, ghost at: nat)
      requires l.Valid() && l.Holds(at, this) && p == prev
      requires item.next == null && item.prev == null && item.list == null
      modifies item, l, l.items
      ensures l.Valid() && l.items == Inserted(old(l.items), at, item) && list == l
    {
      hide Inserted;
      ghost var s := l.items;
      assert p == if at == 0 then null else s[at - 1];
      if p != null {
        item.prev := p;
        p.next := item;
      }
      item.next := this;
      item.list := l;
      prev := item;
      if this == l.head { l.head := item; }
      if l.tail == null { l.tail := this; }
      AfterInserted(s, at, item);
      l.items := Inserted(s, at, item);
    }
  }

  ghost predicate Apart<T>(l: List<T>, m: List?<T>)
    reads l, m
  {
    m != null ==> m != l && forall i, j | 0 <= i < |l.items| && 0 <= j < |m.items| :: l.items[i] != m.items[j]
  }

  // The lists have no item in common: each item knows its own.
  lemma TwoLists<T>(l: List<T>, item: Item<T>, from: nat)
    requires l.Valid() && item.Movable(from, l)
    ensures item !in l.items && forall x | x in l.items :: x.list == l
    ensures item.list != null ==> forall x | x in l.items :: x !in item.list.items
  {
    Owned(l);
    if item.list != null {
      Owned(item.list);
      assert item.list.items[from] == item;
    }
  }

  lemma Owned<T>(l: List<T>)
    requires l.Valid()
    ensures forall x | x in l.items :: x.list == l
  {
    forall x | x in l.items ensures x.list == l {
      var i :| 0 <= i < |l.items| && l.items[i] == x;
      assert l.items[i].list == l;
    }
  }

  function Inserted<T>(s: seq<T>, i: int, x: T): seq<T>
    requires 0 <= i <= |s|
  {
    s[..i] + [x] + s[i..]
  }

  function Without<T>(s: seq<T>, i: int): seq<T>
    requires 0 <= i < |s|
  {
    s[..i] + s[i + 1..]
  }

  ghost predicate Distinct<T>(s: seq<T>) {
    forall i, j | 0 <= i < j < |s| :: s[i] != s[j]
  }

  lemma AfterWithout<T>(s: seq<T>, i: int)
    requires 0 <= i < |s| && Distinct(s)
    ensures
      var r := Without(s, i);
      && |r| == |s| - 1 && Distinct(r)
      && (forall j | 0 <= j < i :: r[j] == s[j])
      && (forall j | i <= j < |r| :: r[j] == s[j + 1])
  {
  }

  lemma AfterInserted<T>(s: seq<T>, i: int, x: T)
    requires 0 <= i <= |s| && Distinct(s) && x !in s
    ensures
      var r := Inserted(s, i, x);
      && |r| == |s| + 1 && Distinct(r)
      && r[i] == x
      && (forall j | 0 <= j < i :: r[j] == s[j])
      && (forall j | i < j < |r| :: r[j] == s[j - 1])
  {
  }

  lemma WithoutFirst<T>(s: seq<T>, i: int)
    requires 0 <= i < |s|
    ensures Without(s[i..], 0) == s[i + 1..]
  {
  }

  class List<T> {
    var head: Item?<T>
    var tail: Item?<T>
    ghost var items: seq<Item<T>>

    ghost predicate Holds(at: nat, item: Item<T>)
      reads this
    {
      at < |items| && items[at] == item
    }

    // The pointers represent `items`; `tail` is null when there are fewer than two.
    ghost predicate Valid()
      reads this, items
    {
      && head == (if |items| == 0 then null else items[0])
      && tail == (if |items| < 2 then null else items[|items| - 1])
      && Distinct(items)
      && (forall i {:trigger items[i].list} | 0 <= i < |items| :: items[i].list == this)
      && (forall i {:trigger items[i].prev} | 0 < i < |items| :: items[i].prev == items[i - 1])
      && (forall i {:trigger items[i].next} | 0 <= i < |items| - 1 :: items[i].next == items[i + 1])
      && (items != [] ==> items[0].prev == null && items[|items| - 1].next == null)
    }

    constructor ()
      ensures Valid() && items == []
    {
      head, tail, items := null, null, [];
    }

    // The first item of an empty list.
    method PutFirst(item: Item<T>, ghost from: nat)
      requires Valid() && items == [] && item.Movable(from, this)
      modifies this, item, item.list, if item.list == null then [] else item.list.items
      ensures Valid() && items == [item]
      ensures old(item.list) != null ==> old(item.list).Valid() && old(item.list).items == Without(old(item.list.items), from)
    {
      hide Without;
      ghost var own := item.list;
      item.Leave(this, from);
      label Left:
      item.list := this;
      head := item;
      items := [item];
      if own != null {
        forall i | 0 <= i < |own.items| ensures unchanged@Left(own.items[i]) {
          assert own.items[i] in own.items;
        }
      }
    }

    // List#append
    method Append(item: Item<T>, ghost from: nat)
      requires Valid() && item.Movable(from, this)
      modifies this, items, item, item.list, if item.list == null then [] else item.list.items
      ensures Valid() && items == old(items) + [item]
      ensures old(item.list) != null ==> old(item.list).Valid() && old(item.list).items == Without(old(item.list.items), from)
    {
      ghost var n := |items|;
      if tail != null {
        var _ := tail.Append(item, n - 1, from);
      } else if head != null {
        var _ := head.Append(item, 0, from);
      } else {
        PutFirst(item, from);
      }
      assert items == Inserted(old(items), n, item) == old(items) + [item];
    }

    // List#prepend
    method Prepend(item: Item<T>, ghost from: nat)
      requires Valid() && item.Movable(from, this)
      modifies this, items, item, item.list, if item.list == null then [] else item.list.items
      ensures Valid() && items == [item] + old(items)
      ensures old(item.list) != null ==> old(item.list).Valid() && old(item.list).items == Without(old(item.list.items), from)
    {
      if head != null {
        var _ := head.Prepend(item, 0, from);
      } else {
        PutFirst(item, from);
      }
      assert items == Inserted(old(items), 0, item) == [item] + old(items);
    }

    // List#toArray
    method ToArray() returns (result: seq<Item<T>>)
      requires Valid()
      ensures result == items
    {
      var item := head;
      result := [];
      while item != null
        invariant |result| <= |items| && result == items[..|result|]
        invariant item == if |result| < |items| then items[|result|] else null
        decreases |items| - |result|
      {
        result := result + [item];
        item := item.next;
      }
    }

    // SCClientSocket#_flushEmitBuffer: take every item off while walking the list
    // and hand its data to the transport, which stays open.
    method Flush() returns (emitted: seq<T>)
      requires Valid()
      modifies this, items
      ensures Valid() && items == [] && head == null
      ensures emitted == seq(|old(items)|, i requires 0 <= i < |old(items)| => old(items)[i].data)
      ensures forall x | x in old(items) :: x.list == null
    {
      hide Without;
      ghost var all := items;
      emitted := [];
      var current := head;
      while current != null
        invariant Valid()
        invariant |emitted| <= |all| && items == all[|emitted|..]
        invariant current == head
        invariant forall i | 0 <= i < |emitted| :: emitted[i] == all[i].data && all[i].list == null
        decreases |all| - |emitted|
      {
        var next := current.next;
        var event := current.data;
        current.Detach(0);
        WithoutFirst(all, |emitted|);
        emitted := emitted + [event];
        current := next;
      }
    }
  }
}
