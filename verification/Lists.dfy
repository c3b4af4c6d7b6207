/** Sequences read as lists without repetition: what the kernel's intrusive lists hold. */
module Lists {

  datatype Option<+T> = None | Some(value: T)

  predicate NoDup<T(==)>(xs: seq<T>) {
    forall i, j :: 0 <= i < j < |xs| ==> xs[i] != xs[j]
  }

  /** xs with every element of gone taken out, order kept. */
  function Without<T(==, !new)>(xs: seq<T>, gone: seq<T>): (r: seq<T>)
    ensures forall x :: x in r <==> x in xs && x !in gone
  {
    if xs == [] then []
    else if xs[0] in gone then Without(xs[1..], gone)
    else [xs[0]] + Without(xs[1..], gone)
  }

  lemma {:induction false} WithoutNoDup<T(!new)>(xs: seq<T>, gone: seq<T>)
    requires NoDup(xs)
    ensures NoDup(Without(xs, gone))
  {
    if xs != [] {
      WithoutNoDup(xs[1..], gone);
      assert xs[0] !in xs[1..];
    }
  }

  lemma {:induction false} WithoutNothing<T(!new)>(xs: seq<T>, gone: seq<T>)
    requires forall x :: x in gone ==> x !in xs
    ensures Without(xs, gone) == xs
  {
    if xs != [] {
      assert xs[0] in xs;
      WithoutNothing(xs[1..], gone);
    }
  }

  lemma {:induction false} WithoutAppend<T(!new)>(xs: seq<T>, ys: seq<T>, gone: seq<T>)
    ensures Without(xs + ys, gone) == Without(xs, gone) + Without(ys, gone)
  {
    if xs == [] {
      assert xs + ys == ys;
    } else {
      assert (xs + ys)[1..] == xs[1..] + ys;
      WithoutAppend(xs[1..], ys, gone);
    }
  }

  /** Taking elements out one after the other is taking them out together. */
  lemma {:induction false} WithoutTwice<T(!new)>(xs: seq<T>, a: seq<T>, b: seq<T>)
    ensures Without(Without(xs, a), b) == Without(xs, a + b)
  {
    if xs != [] {
      WithoutTwice(xs[1..], a, b);
      if xs[0] !in a {
        assert ([xs[0]] + Without(xs[1..], a))[1..] == Without(xs[1..], a);
      }
    }
  }

  lemma {:induction false} NoDupCardinality<T>(xs: seq<T>)
    requires NoDup(xs)
    ensures |set x | x in xs| == |xs|
  {
    if xs != [] {
      var n := |xs| - 1;
      NoDupCardinality(xs[..n]);
      assert (set x | x in xs) == (set x | x in xs[..n]) + {xs[n]};
    }
  }

  lemma NoDupAppend<T>(xs: seq<T>, ys: seq<T>)
    requires NoDup(xs) && NoDup(ys)
    requires forall x :: x in xs ==> x !in ys
    ensures NoDup(xs + ys)
  {
    forall i, j | 0 <= i < j < |xs + ys|
      ensures (xs + ys)[i] != (xs + ys)[j]
    {
      if i < |xs| <= j {
        assert xs[i] in xs && ys[j - |xs|] in ys;
      }
    }
  }

  /** The multiplicity of each element of a list without repetition is one. */
  lemma {:induction false} NoDupMultiset<T(!new)>(xs: seq<T>)
    requires NoDup(xs)
    ensures forall x :: multiset(xs)[x] == if x in xs then 1 else 0
  {
    if xs != [] {
      NoDupMultiset(xs[1..]);
      assert xs == [xs[0]] + xs[1..];
      assert multiset(xs) == multiset{xs[0]} + multiset(xs[1..]);
      assert xs[0] !in xs[1..];
    }
  }
}
