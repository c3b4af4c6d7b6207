/** The list of message queues read as a map from ids to queues. */
module Directory {
  import opened Machine

  datatype MessageQueue = MessageQueue(id: int, body: Queue)

  /** The index of the first queue with this id, or the length of l. */
  function QueueIndex(l: seq<MessageQueue>, id: int): (k: nat)
    ensures k <= |l|
    ensures k < |l| ==> l[k].id == id
    ensures forall i :: 0 <= i < k ==> l[i].id != id
  {
    if l == [] || l[0].id == id then 0 else 1 + QueueIndex(l[1..], id)
  }

  ghost predicate UniqueIds(l: seq<MessageQueue>) {
    forall i, j :: 0 <= i < j < |l| ==> l[i].id != l[j].id
  }

  ghost function Ids(l: seq<MessageQueue>): (ids: set<int>)
    ensures forall id :: id in ids <==> QueueIndex(l, id) < |l|
  {
    var ids := set i | 0 <= i < |l| :: l[i].id;
    assert forall id :: QueueIndex(l, id) < |l| ==> l[QueueIndex(l, id)].id in ids;
    ids
  }

  /** What the list stands for. */
  ghost function Catalog(l: seq<MessageQueue>): map<int, Queue> {
    map id | id in Ids(l) :: l[QueueIndex(l, id)].body
  }

  lemma IndexOf(l: seq<MessageQueue>, i: nat)
    requires UniqueIds(l) && i < |l|
    ensures QueueIndex(l, l[i].id) == i
  { }

  lemma CatalogMissing(l: seq<MessageQueue>, id: int)
    ensures id in Catalog(l) <==> QueueIndex(l, id) < |l|
    ensures id in Catalog(l) ==> Catalog(l)[id] == l[QueueIndex(l, id)].body
  { }

  /** Changing a queue in the list changes it in the map. */
  lemma CatalogUpdate(l: seq<MessageQueue>, i: nat, q: Queue)
    requires UniqueIds(l) && i < |l|
    ensures var m := l[i := MessageQueue(l[i].id, q)];
      UniqueIds(m) && Catalog(m) == Catalog(l)[l[i].id := q]
  {
    var m := l[i := MessageQueue(l[i].id, q)];
    forall id
      ensures QueueIndex(m, id) == QueueIndex(l, id)
    {
      SameIndex(l, m, id);
    }
    IndexOf(l, i);
  }

  lemma {:induction false} SameIndex(l: seq<MessageQueue>, m: seq<MessageQueue>, id: int)
    requires |l| == |m| && forall i :: 0 <= i < |l| ==> l[i].id == m[i].id
    ensures QueueIndex(m, id) == QueueIndex(l, id)
  { }

  lemma {:induction false} AppendIndex(l: seq<MessageQueue>, m: MessageQueue, id: int)
    ensures QueueIndex(l + [m], id) ==
              if QueueIndex(l, id) < |l| then QueueIndex(l, id) else if m.id == id then |l| else |l| + 1
  {
    if l == [] {
      assert l + [m] == [m];
    } else {
      assert (l + [m])[1..] == l[1..] + [m];
      AppendIndex(l[1..], m, id);
    }
  }

  /** What the list with a queue of a new id at the end says of one id. */
  lemma LookupAppend(l: seq<MessageQueue>, q: MessageQueue, x: int)
    requires QueueIndex(l, q.id) == |l|
    ensures x in Catalog(l + [q]) <==> x in Catalog(l) || x == q.id
    ensures x in Catalog(l + [q]) ==> Catalog(l + [q])[x] == if x == q.id then q.body else Catalog(l)[x]
  {
    AppendIndex(l, q, x);
    CatalogMissing(l, x);
    CatalogMissing(l + [q], x);
  }

  lemma CatalogAppend(l: seq<MessageQueue>, id: int, q: Queue)
    requires UniqueIds(l) && id !in Catalog(l)
    ensures var m := l + [MessageQueue(id, q)];
      UniqueIds(m) && Catalog(m) == Catalog(l)[id := q]
  {
    var m := l + [MessageQueue(id, q)];
    CatalogMissing(l, id);
    assert UniqueIds(m);
    forall x
      ensures x in Catalog(m) <==> x in Catalog(l) || x == id
      ensures x in Catalog(m) ==> Catalog(m)[x] == Catalog(l)[id := q][x]
    {
      LookupAppend(l, MessageQueue(id, q), x);
    }
  }

  lemma {:induction false} RemoveIndex(l: seq<MessageQueue>, i: nat, id: int)
    requires UniqueIds(l) && i < |l|
    ensures var k := QueueIndex(l, id);
      QueueIndex(l[..i] + l[i + 1..], id) == if k < i then k else if k == i then |l| - 1 else k - 1
  {
    var m := l[..i] + l[i + 1..];
    if i == 0 {
      assert m == l[1..];
      if l[0].id == id {
        assert forall j :: 0 <= j < |m| ==> m[j].id != id;
      }
    } else {
      assert m[1..] == l[1..][..i - 1] + l[1..][i..];
      RemoveIndex(l[1..], i - 1, id);
    }
  }

  lemma RemoveUnique(l: seq<MessageQueue>, i: nat)
    requires UniqueIds(l) && i < |l|
    ensures UniqueIds(l[..i] + l[i + 1..])
  { }

  /** Where index k ends up when index i is taken out of n. */
  function Shifted(k: nat, i: nat, n: nat): int {
    if k < i then k else if k == i then n - 1 else k - 1
  }

  /** What the list without its element i says of one id. */
  lemma LookupWithout(l: seq<MessageQueue>, m: seq<MessageQueue>, i: nat, x: int)
    requires i < |l| && |m| == |l| - 1 && QueueIndex(l, l[i].id) == i
    requires QueueIndex(m, x) == Shifted(QueueIndex(l, x), i, |l|)
    requires QueueIndex(m, x) < |m| ==> m[QueueIndex(m, x)] == l[QueueIndex(l, x)]
    ensures x in Catalog(m) <==> x in Catalog(l) && x != l[i].id
    ensures x in Catalog(m) ==> Catalog(m)[x] == Catalog(l)[x]
  { }

  lemma CatalogWithout(l: seq<MessageQueue>, m: seq<MessageQueue>, i: nat)
    requires i < |l| && |m| == |l| - 1 && QueueIndex(l, l[i].id) == i
    requires forall j :: 0 <= j < |m| ==> m[j] == l[if j < i then j else j + 1]
    requires forall x :: QueueIndex(m, x) == Shifted(QueueIndex(l, x), i, |l|)
    ensures Catalog(m) == Catalog(l) - {l[i].id}
  {
    forall x
      ensures x in Catalog(m) <==> x in Catalog(l) && x != l[i].id
      ensures x in Catalog(m) ==> Catalog(m)[x] == Catalog(l)[x]
    {
      LookupWithout(l, m, i, x);
    }
  }

  lemma CatalogRemove(l: seq<MessageQueue>, i: nat)
    requires UniqueIds(l) && i < |l|
    ensures var m := l[..i] + l[i + 1..];
      UniqueIds(m) && Catalog(m) == Catalog(l) - {l[i].id}
  {
    var m := l[..i] + l[i + 1..];
    RemoveUnique(l, i);
    IndexOf(l, i);
    forall x
      ensures QueueIndex(m, x) == Shifted(QueueIndex(l, x), i, |l|)
    {
      RemoveIndex(l, i, x);
    }
    CatalogWithout(l, m, i);
  }
}
