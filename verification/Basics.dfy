/** Small vocabulary shared by the models. */
module Basics {
  datatype Option<+T> = None | Some(value: T)

  /** The elements of `xs` satisfying `p`, in order. */
  function Keep<T(!new)>(xs: seq<T>, p: T -> bool): (r: seq<T>)
    ensures forall x :: x in r <==> x in xs && p(x)
  {
    if xs == [] then []
    else
      var init := Keep(xs[..|xs| - 1], p);
      if p(xs[|xs| - 1]) then init + [xs[|xs| - 1]] else init
  }

  /** JavaScript's `[...new Set(xs)]`: first occurrences, in order. */
  function Dedup<T(==, !new)>(xs: seq<T>): (r: seq<T>)
    ensures NoDup(r)
    ensures forall x :: x in r <==> x in xs
  {
    if xs == [] then []
    else
      var init := Dedup(xs[..|xs| - 1]);
      if xs[|xs| - 1] in init then init else init + [xs[|xs| - 1]]
  }

  lemma KeepSnoc<T(!new)>(xs: seq<T>, x: T, p: T -> bool)
    ensures Keep(xs + [x], p) == if p(x) then Keep(xs, p) + [x] else Keep(xs, p)
  {
    assert (xs + [x])[..|xs|] == xs;
  }

  lemma DedupSnoc<T(!new)>(xs: seq<T>, x: T)
    ensures Dedup(xs + [x]) == if x in Dedup(xs) then Dedup(xs) else Dedup(xs) + [x]
  {
    assert (xs + [x])[..|xs|] == xs;
  }

  predicate NoDup<T(==)>(xs: seq<T>) {
    forall i, j :: 0 <= i < j < |xs| ==> xs[i] != xs[j]
  }

  lemma {:induction false} KeepNoDup<T(!new)>(xs: seq<T>, p: T -> bool)
    requires NoDup(xs)
    ensures NoDup(Keep(xs, p))
  {
    if xs != [] {
      KeepNoDup(xs[..|xs| - 1], p);
    }
  }

  lemma {:induction false} KeepAll<T(!new)>(xs: seq<T>, p: T -> bool)
    requires forall x :: x in xs ==> p(x)
    ensures Keep(xs, p) == xs
  {
    if xs != [] {
      KeepAll(xs[..|xs| - 1], p);
    }
  }

  lemma {:induction false} KeepAgrees<T(!new)>(xs: seq<T>, p: T -> bool, q: T -> bool)
    requires forall x :: x in xs ==> (p(x) <==> q(x))
    ensures Keep(xs, p) == Keep(xs, q)
  {
    if xs != [] {
      KeepAgrees(xs[..|xs| - 1], p, q);
    }
  }

  function Elements<T(==)>(xs: seq<T>): set<T> {
    set x | x in xs
  }

  lemma ElementsStep<T>(xs: seq<T>, i: nat)
    requires i < |xs|
    ensures Elements(xs[..i + 1]) == Elements(xs[..i]) + {xs[i]}
  {
    assert xs[..i + 1] == xs[..i] + [xs[i]];
  }

  lemma PrefixStep<T>(xs: seq<T>, i: nat)
    requires i < |xs|
    ensures xs[..i + 1] == xs[..i] + [xs[i]]
    ensures xs[..i + 1][..i] == xs[..i]
  {
  }

  lemma NoMembers<T(!new)>(s: set<T>)
    requires forall x :: x !in s
    ensures s == {}
  {
  }

  lemma PickOne<T(!new)>(s: set<T>) returns (x: T)
    requires s != {}
    ensures x in s
  {
    if forall y :: y !in s {
      NoMembers(s);
      assert false;
    }
    x :| x in s;
  }
}
