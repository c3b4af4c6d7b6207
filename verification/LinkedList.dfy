/** The intrusive doubly linked list of linked_list.c, on the heap. */
module LinkedList {
  import opened Lists

  class ListItem {
    var prev: ListItem?
    var next: ListItem?

    constructor ()
      ensures prev == null && next == null
    {
      prev, next := null, null;
    }
  }

  /** ys is xs with x put at position k, said element by element. */
  ghost predicate InsertedAt<T>(xs: seq<T>, k: nat, x: T, ys: seq<T>)
    requires k <= |xs|
  {
    && |ys| == |xs| + 1
    && (forall i :: 0 <= i < k ==> ys[i] == xs[i])
    && ys[k] == x
    && (forall i :: k < i < |ys| ==> ys[i] == xs[i - 1])
  }

  /** ys is xs with x inserted in front, or right after prev. */
  ghost predicate Inserted(xs: seq<ListItem>, prev: ListItem?, x: ListItem, ys: seq<ListItem>) {
    exists k :: 0 <= k <= |xs| && InsertedAt(xs, k, x, ys) && (if k == 0 then prev == null else prev == xs[k - 1])
  }

  /** ys is xs without its element at position k, said element by element. */
  ghost predicate RemovedAt<T>(xs: seq<T>, k: nat, ys: seq<T>)
    requires k < |xs|
  {
    && |ys| == |xs| - 1
    && (forall i :: 0 <= i < k ==> ys[i] == xs[i])
    && (forall i :: k <= i < |ys| ==> ys[i] == xs[i + 1])
  }

  /** ys is xs with x taken out. */
  ghost predicate Detached(xs: seq<ListItem>, x: ListItem, ys: seq<ListItem>) {
    exists k :: 0 <= k < |xs| && xs[k] == x && RemovedAt(xs, k, ys)
  }

  lemma InsertedAtIsSplice<T>(xs: seq<T>, k: nat, x: T, ys: seq<T>)
    requires k <= |xs|
    ensures InsertedAt(xs, k, x, ys) <==> ys == xs[..k] + [x] + xs[k..]
  { }

  lemma RemovedAtIsSplice<T>(xs: seq<T>, k: nat, ys: seq<T>)
    requires k < |xs|
    ensures RemovedAt(xs, k, ys) <==> ys == xs[..k] + xs[k + 1..]
  { }

  lemma Splice<T>(xs: seq<T>, k: nat, x: T) returns (ys: seq<T>)
    requires k <= |xs|
    ensures InsertedAt(xs, k, x, ys)
    ensures NoDup(xs) && x !in xs ==> NoDup(ys)
  {
    ys := xs[..k] + [x] + xs[k..];
    InsertedAtIsSplice(xs, k, x, ys);
  }

  lemma Cut<T>(xs: seq<T>, k: nat) returns (ys: seq<T>)
    requires k < |xs|
    ensures RemovedAt(xs, k, ys)
    ensures NoDup(xs) ==> NoDup(ys) && xs[k] !in ys
  {
    ys := xs[..k] + xs[k + 1..];
    RemovedAtIsSplice(xs, k, ys);
  }

  /** The items met by following at most fuel next links from x. */
  ghost function Forward(x: ListItem?, fuel: nat): seq<ListItem>
    reads *
  {
    if x == null || fuel == 0 then [] else [x] + Forward(x.next, fuel - 1)
  }

  /** The items met by following at most fuel prev links from x. */
  ghost function Backward(x: ListItem?, fuel: nat): seq<ListItem>
    reads *
  {
    if x == null || fuel == 0 then [] else [x] + Backward(x.prev, fuel - 1)
  }

  ghost function Reversed<T>(xs: seq<T>): (r: seq<T>)
    ensures |r| == |xs|
  {
    if xs == [] then [] else [xs[|xs| - 1]] + Reversed(xs[..|xs| - 1])
  }

  class ListHead {
    var first: ListItem?
    var last: ListItem?
    var size: int
    ghost var items: seq<ListItem>

    ghost predicate Valid()
      reads this, items
    {
      && size == |items|
      && NoDup(items)
      && first == (if items == [] then null else items[0])
      && last == (if items == [] then null else items[|items| - 1])
      && (forall i {:trigger items[i].prev} :: 0 <= i < |items| ==>
            items[i].prev == if i == 0 then null else items[i - 1])
      && (forall i {:trigger items[i].next} :: 0 <= i < |items| ==>
            items[i].next == if i == |items| - 1 then null else items[i + 1])
    }

    /** List_init */
    constructor ()
      ensures Valid() && items == []
    {
      first, last, size := null, null, 0;
      items := [];
    }

    /** List_find */
    method Find(item: ListItem) returns (r: ListItem?)
      requires Valid()
      ensures r == if item in items then item else null
    {
      var aux := first;
      ghost var k := 0;
      while aux != null
        invariant 0 <= k <= |items|
        invariant aux == if k < |items| then items[k] else null
        invariant item !in items[..k]
        decreases |items| - k
      {
        if aux == item {
          return item;
        }
        aux := aux.next;
        k := k + 1;
      }
      return null;
    }

    /** List_insert: refuses an item that carries a link; a member of this list that carries none is
        its only member, which is why callers must not hand that one in. */
    method Insert(prev: ListItem?, item: ListItem) returns (r: ListItem?)
      requires Valid()
      requires prev != null ==> prev in items
      requires item in items ==> |items| > 1
      modifies this, items, item
      ensures Valid()
      ensures old(item.next != null || item.prev != null) ==>
                r == null && items == old(items) && unchanged(this) && unchanged(items) && unchanged(item)
      ensures old(item.next == null && item.prev == null) ==>
                r == item && Inserted(old(items), prev, item, items)
    {
      if item in items {
        LinkedIffNotAlone(item);
      }
      if item.next != null || item.prev != null {
        return null;
      }
      ghost var k, xs := 0, items;
      if prev != null {
        ghost var i :| 0 <= i < |items| && items[i] == prev;
        k := i + 1;
      }
      var next := if prev != null then prev.next else first;
      assert next == if k < |items| then items[k] else null;
      if prev != null {
        item.prev := prev;
        prev.next := item;
      }
      if next != null {
        item.next := next;
        next.prev := item;
      }
      if prev == null {
        first := item;
      }
      if next == null {
        last := item;
      }
      size := size + 1;
      items := Splice(xs, k, item);
      return item;
    }

    /** List_detach */
    method Detach(item: ListItem) returns (r: ListItem)
      requires Valid() && item in items
      modifies this, items
      ensures Valid()
      ensures r == item && item.next == null && item.prev == null
      ensures item !in items && Detached(old(items), item, items)
    {
      ghost var k :| 0 <= k < |items| && items[k] == item;
      var prev := item.prev;
      var next := item.next;
      assert prev == if k == 0 then null else items[k - 1];
      assert next == if k == |items| - 1 then null else items[k + 1];
      if prev != null {
        prev.next := next;
      }
      if next != null {
        next.prev := prev;
      }
      if item == first {
        first := next;
      }
      if item == last {
        last := prev;
      }
      size := size - 1;
      item.next, item.prev := null, null;
      items := Cut(items, k);
      return item;
    }

    /** A member carries a link exactly when it is not alone: the test List_insert refuses on. */
    lemma LinkedIffNotAlone(item: ListItem)
      requires Valid() && item in items
      ensures (item.next != null || item.prev != null) <==> |items| > 1
    { }

    /** Following next from first meets the members in order. */
    lemma {:induction false} ForwardFrom(k: nat)
      requires Valid() && k <= |items|
      ensures Forward(if k < |items| then items[k] else null, |items| - k) == items[k..]
      decreases |items| - k
    {
      if k < |items| {
        ForwardFrom(k + 1);
        assert items[k].next == if k == |items| - 1 then null else items[k + 1];
        assert items[k..] == [items[k]] + items[k + 1..];
      }
    }

    lemma {:induction false} BackwardFrom(k: nat)
      requires Valid() && k <= |items|
      ensures Backward(if k > 0 then items[k - 1] else null, k) == Reversed(items[..k])
      decreases k
    {
      if k > 0 {
        BackwardFrom(k - 1);
        assert items[k - 1].prev == if k - 1 == 0 then null else items[k - 2];
        assert items[..k][..k - 1] == items[..k - 1];
      }
    }

    /** Both traversals see the same list, one in order and one reversed. */
    lemma Traversals()
      requires Valid()
      ensures Forward(first, size) == items
      ensures Backward(last, size) == Reversed(items)
    {
      ForwardFrom(0);
      BackwardFrom(|items|);
      assert items[..|items|] == items;
    }
  }

  /** Detaching from one list and inserting at the end of another, the move nearly every syscall makes: the insertion is
      never refused, because detaching cleared the links. */
  method Move(from: ListHead, to: ListHead, item: ListItem) returns (r: ListItem?)
    requires from != to && from.Valid() && to.Valid()
    requires forall i, j :: 0 <= i < |from.items| && 0 <= j < |to.items| ==> from.items[i] != to.items[j]
    requires item in from.items
    modifies from, from.items, to, to.items
    ensures from.Valid() && to.Valid()
    ensures r == item && to.items == old(to.items) + [item]
    ensures Detached(old(from.items), item, from.items)
  {
    ghost var xs := to.items;
    var d := from.Detach(item);
    assert to.Valid() by {
      assert forall i :: 0 <= i < |xs| ==> xs[i].prev == old(xs[i].prev) && xs[i].next == old(xs[i].next);
    }
    r := to.Insert(to.last, d);
  }
}
