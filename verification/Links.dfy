/** The link fields of blocks that are threaded into lists, and what linked_list.c does to them when the fields belong to the
    blocks and not to the lists. */
module Links {
  import opened Lists

  /** A block without a key has a null link. */
  datatype Links<T> = Links(next: map<T, T>, prev: map<T, T>)

  function At<T(==)>(m: map<T, T>, x: T): Option<T> {
    if x in m then Some(m[x]) else None
  }

  /** The test on which List_insert refuses a block. */
  predicate Carries<T(==)>(l: Links<T>, x: T) {
    x in l.next || x in l.prev
  }

  function First<T>(xs: seq<T>): Option<T> {
    if xs == [] then None else Some(xs[0])
  }

  function Last<T>(xs: seq<T>): Option<T> {
    if xs == [] then None else Some(xs[|xs| - 1])
  }

  /** The writes of List_insert into a list that starts with first, for a block that it does not refuse. */
  function Tie<T(==)>(l: Links<T>, first: Option<T>, prev: Option<T>, x: T): Links<T> {
    var n := if prev.Some? then At(l.next, prev.value) else first;
    var m := if prev.Some? then Links(l.next[prev.value := x], l.prev[x := prev.value]) else l;
    if n.Some? then Links(m.next[x := n.value], m.prev[n.value := x]) else m
  }

  /** m after a link field is overwritten. */
  function Written<T(==)>(m: map<T, T>, x: T, y: Option<T>): map<T, T> {
    if y.Some? then m[x := y.value] else m - {x}
  }

  /** The writes of List_detach. */
  function Untie<T(==)>(l: Links<T>, x: T): Links<T> {
    var p, n := At(l.prev, x), At(l.next, x);
    var next := if p.Some? then Written(l.next, p.value, n) else l.next;
    var prev := if n.Some? then Written(l.prev, n.value, p) else l.prev;
    Links(next - {x}, prev - {x})
  }

  /** Member i has the members around it for neighbours. */
  ghost predicate Tied<T>(l: Links<T>, xs: seq<T>, i: nat)
    requires i < |xs|
  {
    && At(l.next, xs[i]) == (if i == |xs| - 1 then None else Some(xs[i + 1]))
    && At(l.prev, xs[i]) == (if i == 0 then None else Some(xs[i - 1]))
  }

  /** The links of its members make xs a list. */
  ghost predicate Threads<T>(l: Links<T>, xs: seq<T>) {
    NoDup(xs) && forall i :: 0 <= i < |xs| ==> Tied(l, xs, i)
  }

  /** No block outside xs and but is written to. */
  ghost predicate SameOutside<T(!new)>(l: Links<T>, m: Links<T>, xs: seq<T>, but: T) {
    forall y :: y !in xs && y != but ==> At(m.next, y) == At(l.next, y) && At(m.prev, y) == At(l.prev, y)
  }

  /** A member of a list carries a link exactly when it is not alone there. */
  lemma CarriesIffNotAlone<T(!new)>(l: Links<T>, xs: seq<T>, x: T)
    requires Threads(l, xs) && x in xs
    ensures Carries(l, x) <==> |xs| > 1
  {
    var i :| 0 <= i < |xs| && xs[i] == x;
    assert Tied(l, xs, i);
  }

  /** What inserting x between p and n makes of the links of y. */
  lemma TieFields<T>(l: Links<T>, p: Option<T>, n: Option<T>, x: T, y: T)
    requires !Carries(l, x) && p != Some(x) && n != Some(x) && (p.Some? ==> At(l.next, p.value) == n)
    ensures var m := Tie(l, n, p, x);
      && At(m.next, y) == (if y == x then n else if p == Some(y) then Some(x) else At(l.next, y))
      && At(m.prev, y) == (if y == x then p else if n == Some(y) then Some(x) else At(l.prev, y))
  { }

  /** Inserting an unlinked block behind the first k members. */
  lemma TieThreads<T(!new)>(l: Links<T>, xs: seq<T>, k: nat, x: T)
    requires Threads(l, xs) && k <= |xs| && x !in xs && !Carries(l, x)
    ensures var m := Tie(l, First(xs), Last(xs[..k]), x);
      Threads(m, xs[..k] + [x] + xs[k..]) && SameOutside(l, m, xs, x)
  {
    var m, ys := Tie(l, First(xs), Last(xs[..k]), x), xs[..k] + [x] + xs[k..];
    var n := if k == |xs| then None else Some(xs[k]);
    assert k > 0 ==> Tied(l, xs, k - 1);
    forall y
      ensures At(m.next, y) == (if y == x then n else if Last(xs[..k]) == Some(y) then Some(x) else At(l.next, y))
      ensures At(m.prev, y) == (if y == x then Last(xs[..k]) else if n == Some(y) then Some(x) else At(l.prev, y))
    {
      TieFields(l, Last(xs[..k]), n, x, y);
    }
    forall i | 0 <= i < |ys|
      ensures Tied(m, ys, i)
    {
      if i != k {
        assert Tied(l, xs, if i < k then i else i - 1);
      }
    }
  }

  /** What detaching x leaves of the links of y. */
  lemma UntieFields<T>(l: Links<T>, x: T, y: T)
    requires At(l.next, x) != Some(x) && At(l.prev, x) != Some(x)
    ensures var m := Untie(l, x);
      && At(m.next, y) == (if y == x then None else if At(l.prev, x) == Some(y) then At(l.next, x) else At(l.next, y))
      && At(m.prev, y) == (if y == x then None else if At(l.next, x) == Some(y) then At(l.prev, x) else At(l.prev, y))
  { }

  /** The member that follows another one once member k is gone. */
  lemma RestTied<T>(l: Links<T>, m: Links<T>, xs: seq<T>, k: nat, i: nat)
    requires NoDup(xs) && k < |xs| && i < |xs| - 1 && Tied(l, xs, k) && Tied(l, xs, if i < k then i else i + 1)
    requires var x, y := xs[k], xs[if i < k then i else i + 1];
      && At(m.next, y) == (if At(l.prev, x) == Some(y) then At(l.next, x) else At(l.next, y))
      && At(m.prev, y) == (if At(l.next, x) == Some(y) then At(l.prev, x) else At(l.prev, y))
    ensures Tied(m, xs[..k] + xs[k + 1..], i)
  {
    var ys, j := xs[..k] + xs[k + 1..], if i < k then i else i + 1;
    assert ys[i] == xs[j];
    assert i > 0 ==> ys[i - 1] == xs[if i - 1 < k then i - 1 else i];
    assert i < |ys| - 1 ==> ys[i + 1] == xs[if i + 1 < k then i + 1 else i + 2];
    assert k > 0 ==> (xs[k - 1] == xs[j] <==> j == k - 1);
    assert k < |xs| - 1 ==> (xs[k + 1] == xs[j] <==> j == k + 1);
  }

  /** Detaching a member: it loses its links and the rest is a list. */
  lemma UntieThreads<T(!new)>(l: Links<T>, xs: seq<T>, k: nat)
    requires Threads(l, xs) && k < |xs|
    ensures var m := Untie(l, xs[k]);
      Threads(m, xs[..k] + xs[k + 1..]) && SameOutside(l, m, xs, xs[k]) && !Carries(m, xs[k])
  {
    var m, ys := Untie(l, xs[k]), xs[..k] + xs[k + 1..];
    assert Tied(l, xs, k);
    assert NoDup(ys);
    forall i | 0 <= i < |ys|
      ensures Tied(m, ys, i)
    {
      var j := if i < k then i else i + 1;
      assert Tied(l, xs, j);
      UntieFields(l, xs[k], xs[j]);
      RestTied(l, m, xs, k, i);
    }
    UntieOutside(l, xs, k);
  }

  lemma UntieOutside<T(!new)>(l: Links<T>, xs: seq<T>, k: nat)
    requires k < |xs| && NoDup(xs) && Tied(l, xs, k)
    ensures SameOutside(l, Untie(l, xs[k]), xs, xs[k]) && !Carries(Untie(l, xs[k]), xs[k])
  {
    forall y | y !in xs && y != xs[k]
      ensures At(Untie(l, xs[k]).next, y) == At(l.next, y) && At(Untie(l, xs[k]).prev, y) == At(l.prev, y)
    {
      UntieFields(l, xs[k], y);
    }
  }

  /** Taking one element out of a list without repetition. */
  lemma {:induction false} WithoutAt<T(!new)>(xs: seq<T>, k: nat)
    requires NoDup(xs) && k < |xs|
    ensures Without(xs, [xs[k]]) == xs[..k] + xs[k + 1..]
  {
    if k == 0 {
      WithoutNothing(xs[1..], [xs[0]]);
    } else {
      WithoutAt(xs[1..], k - 1);
      assert xs[..k] == [xs[0]] + xs[1..][..k - 1];
    }
  }
}
