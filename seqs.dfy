/** Sequence helpers used to specify the game's per-frame list updates.

    Both functions are defined by peeling off the LAST element, which is the
    order in which the game's `splice(i, 1); i--` loops walk their arrays:
    after examining k elements, the part already walked is a function of the
    first k original elements.
 */
module Seqs {

  /** Applies `f` to every element, keeping positions. */
  function Map<T, U>(f: T -> U, s: seq<T>): (r: seq<U>)
    ensures |r| == |s|
  {
    if s == [] then [] else Map(f, s[..|s| - 1]) + [f(s[|s| - 1])]
  }

  /** Element i of the image is the image of element i. */
  lemma {:induction false} MapAt<T, U>(f: T -> U, s: seq<T>, i: nat)
    requires i < |s|
    ensures Map(f, s)[i] == f(s[i])
  {
    if i < |s| - 1 {
      MapAt(f, s[..|s| - 1], i);
    }
  }

  /** Something is in the image exactly when it is the image of some element. */
  lemma MapMember<T, U>(f: T -> U, s: seq<T>, y: U)
    ensures y in Map(f, s) <==> exists i :: 0 <= i < |s| && y == f(s[i])
  {
    if y in Map(f, s) {
      var i :| 0 <= i < |s| && Map(f, s)[i] == y;
      MapAt(f, s, i);
    }
    if exists i :: 0 <= i < |s| && y == f(s[i]) {
      var i :| 0 <= i < |s| && y == f(s[i]);
      MapAt(f, s, i);
    }
  }

  /** The elements of `s` that satisfy `p`, in their original order. */
  function Filter<T(!new)>(p: T -> bool, s: seq<T>): (r: seq<T>)
    ensures |r| <= |s|
  {
    if s == [] then [] else Filter(p, s[..|s| - 1]) + (if p(s[|s| - 1]) then [s[|s| - 1]] else [])
  }

  /** Exactly the elements that satisfy `p` survive the filter. */
  lemma {:induction false} FilterMember<T(!new)>(p: T -> bool, s: seq<T>, x: T)
    ensures x in Filter(p, s) <==> x in s && p(x)
  {
    if s != [] {
      assert s == s[..|s| - 1] + [s[|s| - 1]];
      FilterMember(p, s[..|s| - 1], x);
    }
  }

  /** The filter only ever drops elements. */
  lemma FilterSubset<T(!new)>(p: T -> bool, s: seq<T>)
    ensures forall x :: x in Filter(p, s) ==> x in s
  {
    forall x | x in Filter(p, s)
      ensures x in s
    {
      FilterMember(p, s, x);
    }
  }

  /** One more element at the end: `Map` extends by exactly its image. */
  lemma MapSnoc<T, U>(f: T -> U, s: seq<T>, x: T)
    ensures Map(f, s + [x]) == Map(f, s) + [f(x)]
  {
    assert (s + [x])[..|s|] == s;
  }

  /** Mapping a concatenation maps each part in place. */
  lemma {:induction false} MapAppend<T, U>(f: T -> U, a: seq<T>, b: seq<T>)
    ensures Map(f, a + b) == Map(f, a) + Map(f, b)
  {
    if b != [] {
      var init, last := b[..|b| - 1], b[|b| - 1];
      assert b == init + [last];
      assert a + b == (a + init) + [last];
      MapSnoc(f, a + init, last);
      MapSnoc(f, init, last);
      MapAppend(f, a, init);
    } else {
      assert a + b == a;
    }
  }

  /** One more element at the end: `Filter` extends by it exactly when it passes. */
  lemma FilterSnoc<T(!new)>(p: T -> bool, s: seq<T>, x: T)
    ensures Filter(p, s + [x]) == Filter(p, s) + (if p(x) then [x] else [])
  {
    assert (s + [x])[..|s|] == s;
  }

  /** Order preservation: filtering a concatenation filters each part in place. */
  lemma {:induction false} FilterAppend<T(!new)>(p: T -> bool, a: seq<T>, b: seq<T>)
    ensures Filter(p, a + b) == Filter(p, a) + Filter(p, b)
  {
    if b == [] {
      assert a + b == a;
    } else {
      var init, last := b[..|b| - 1], b[|b| - 1];
      assert b == init + [last];
      assert a + b == (a + init) + [last];
      FilterSnoc(p, a + init, last);
      FilterSnoc(p, init, last);
      FilterAppend(p, a, init);
    }
  }

  /** Every element of `s` lands on exactly one side of a predicate and its negation. */
  lemma {:induction false} FilterPartition<T(!new)>(p: T -> bool, q: T -> bool, s: seq<T>)
    requires forall x :: q(x) == !p(x)
    ensures |Filter(p, s)| + |Filter(q, s)| == |s|
  {
    if s != [] {
      var init, last := s[..|s| - 1], s[|s| - 1];
      assert s == init + [last];
      FilterSnoc(p, init, last);
      FilterSnoc(q, init, last);
      FilterPartition(p, q, init);
    }
  }

  /** A predicate that no element satisfies filters everything out. */
  lemma FilterNone<T(!new)>(p: T -> bool, s: seq<T>)
    requires forall x :: x in s ==> !p(x)
    ensures Filter(p, s) == []
  {
    var r := Filter(p, s);
    if r != [] {
      FilterMember(p, s, r[0]);
    }
  }

  /** Every element satisfies `p`; checked element by element from the back,
      so that a proof unfolds it only as far as it needs. */
  predicate All<T>(p: T -> bool, s: seq<T>)
  {
    s == [] || (All(p, s[..|s| - 1]) && p(s[|s| - 1]))
  }

  /** `All` says exactly that every member satisfies `p`. */
  lemma {:induction false} AllMember<T>(p: T -> bool, s: seq<T>)
    ensures All(p, s) <==> forall x :: x in s ==> p(x)
  {
    if s != [] {
      var init, last := s[..|s| - 1], s[|s| - 1];
      assert s == init + [last];
      AllMember(p, init);
    }
  }

  /** Appending keeps `All` exactly when the new part satisfies it too. */
  lemma AllAppend<T>(p: T -> bool, a: seq<T>, b: seq<T>)
    ensures All(p, a + b) <==> All(p, a) && All(p, b)
  {
    AllMember(p, a);
    AllMember(p, b);
    AllMember(p, a + b);
  }

  /** The slices around position i after `xs[i]` is replaced by `y` and kept. */
  lemma UpdateKeep<T>(xs: seq<T>, tail: seq<T>, i: nat, y: T)
    requires i < |xs| && xs[i..] == tail
    ensures xs[i := y][..i + 1] == xs[..i] + [y]
    ensures xs[i := y][i + 1..] == tail[1..]
  {
    assert xs[i + 1..] == xs[i..][1..];
  }

  /** The slices around position i after `xs[i]` is replaced and then spliced out. */
  lemma UpdateDrop<T>(xs: seq<T>, tail: seq<T>, i: nat, y: T)
    requires i < |xs| && xs[i..] == tail
    ensures var ys := xs[i := y]; (ys[..i] + ys[i + 1..])[..i] == xs[..i]
    ensures var ys := xs[i := y]; (ys[..i] + ys[i + 1..])[i..] == tail[1..]
  {
    assert xs[i + 1..] == xs[i..][1..];
  }

  /** The slices around position i when `xs[i]` is kept as it is. */
  lemma SliceKeep<T>(xs: seq<T>, tail: seq<T>, i: nat)
    requires i < |xs| && xs[i..] == tail
    ensures xs[..i + 1] == xs[..i] + [xs[i]]
    ensures xs[i + 1..] == tail[1..]
  {
    assert xs[i + 1..] == xs[i..][1..];
  }

  /** The slices around position i after `xs[i]` is spliced out. */
  lemma SliceDrop<T>(xs: seq<T>, tail: seq<T>, i: nat)
    requires i < |xs| && xs[i..] == tail
    ensures (xs[..i] + xs[i + 1..])[..i] == xs[..i]
    ensures (xs[..i] + xs[i + 1..])[i..] == tail[1..]
  {
    assert xs[i + 1..] == xs[i..][1..];
  }
}
