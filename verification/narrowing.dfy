/**
 * The one generic primitive behind every narrowing operation: walk an
 * ordered collection, keep the entries a partial projection accepts, and
 * return their payloads in their original order (the `filt_mapper!` macro,
 * which is `filter_map` followed by `collect`).
 */
module Narrowing {
  import opened Wrappers

  function FilterMap<A, B>(xs: seq<A>, f: A -> Option<B>): (r: seq<B>)
    ensures |r| <= |xs|
    ensures r == [] <==> forall x :: x in xs ==> f(x).None?
    decreases |xs|
  {
    if xs == [] then []
    else
      assert xs == [xs[0]] + xs[1..];
      var rest := FilterMap(xs[1..], f);
      match f(xs[0])
      case Some(y) => [y] + rest
      case None => rest
  }

  /** The result holds exactly the payloads of the accepted entries. */
  lemma {:induction false} FilterMapMembers<A, B>(xs: seq<A>, f: A -> Option<B>)
    ensures forall k :: 0 <= k < |FilterMap(xs, f)| ==> exists x :: x in xs && f(x) == Some(FilterMap(xs, f)[k])
    ensures forall x :: x in xs && f(x).Some? ==> f(x).value in FilterMap(xs, f)
    decreases |xs|
  {
    if xs != [] {
      FilterMapMembers(xs[1..], f);
      assert xs == [xs[0]] + xs[1..];
      var r, rest := FilterMap(xs, f), FilterMap(xs[1..], f);
      forall k | 0 <= k < |r|
        ensures exists x :: x in xs && f(x) == Some(r[k])
      {
        if f(xs[0]).Some? && k == 0 {
          assert f(xs[0]) == Some(r[k]);
        } else {
          var k' := if f(xs[0]).Some? then k - 1 else k;
          assert r[k] == rest[k'];
          var x :| x in xs[1..] && f(x) == Some(rest[k']);
          assert x in xs;
        }
      }
    } else {
      assert FilterMap(xs, f) == [];
    }
  }

  /** Narrowing distributes over concatenation: the results of a prefix come first. */
  lemma {:induction false} FilterMapAppend<A, B>(a: seq<A>, b: seq<A>, f: A -> Option<B>)
    ensures FilterMap(a + b, f) == FilterMap(a, f) + FilterMap(b, f)
    decreases |a|
  {
    if a == [] {
      assert a + b == b;
    } else {
      assert (a + b)[0] == a[0];
      assert (a + b)[1..] == a[1..] + b;
      FilterMapAppend(a[1..], b, f);
    }
  }

  /** An entry the projection rejects contributes nothing, wherever it sits. */
  lemma FilterMapSkips<A, B>(a: seq<A>, x: A, b: seq<A>, f: A -> Option<B>)
    requires f(x).None?
    ensures FilterMap(a + [x] + b, f) == FilterMap(a + b, f)
  {
    FilterMapAppend(a + [x], b, f);
    FilterMapAppend(a, [x], f);
    FilterMapAppend(a, b, f);
    assert FilterMap([x], f) == [];
  }

  /** An accepted entry contributes exactly its payload, between those of its neighbours. */
  lemma FilterMapKeeps<A, B>(a: seq<A>, x: A, b: seq<A>, f: A -> Option<B>)
    requires f(x).Some?
    ensures FilterMap(a + [x] + b, f) == FilterMap(a, f) + [f(x).value] + FilterMap(b, f)
  {
    FilterMapAppend(a + [x], b, f);
    FilterMapAppend(a, [x], f);
    assert FilterMap([x], f) == [f(x).value];
  }

  /** The payload an accepted entry contributes: one element, or none when rejected. */
  function Contribution<A, B>(x: A, f: A -> Option<B>): seq<B>
  {
    match f(x)
    case Some(y) => [y]
    case None => []
  }

  /** Narrowing a non-empty collection: the first entry's contribution, then the rest. */
  lemma FilterMapCons<A, B>(xs: seq<A>, f: A -> Option<B>)
    requires xs != []
    ensures FilterMap(xs, f) == Contribution(xs[0], f) + FilterMap(xs[1..], f)
  {
  }

  /** Narrowing a three-entry collection, entry by entry. */
  lemma FilterMapOfThree<A, B>(x: A, y: A, z: A, f: A -> Option<B>)
    ensures FilterMap([x, y, z], f) == Contribution(x, f) + Contribution(y, f) + Contribution(z, f)
  {
    var xs := [x, y, z];
    assert xs[1..] == [y, z] && xs[1..][1..] == [z] && xs[1..][1..][1..] == [];
    FilterMapCons(xs, f);
    FilterMapCons(xs[1..], f);
    FilterMapCons(xs[1..][1..], f);
  }

  /** Inserting one entry adds exactly its own contribution, at its own place. */
  lemma FilterMapSplice<A, B>(a: seq<A>, x: A, b: seq<A>, f: A -> Option<B>)
    ensures FilterMap(a + [x] + b, f) == FilterMap(a, f) + Contribution(x, f) + FilterMap(b, f)
  {
    if f(x).Some? {
      FilterMapKeeps(a, x, b, f);
    } else {
      FilterMapSkips(a, x, b, f);
      FilterMapAppend(a, b, f);
    }
  }

  /**
   * Entry `i`, when accepted, lands at the position given by the number of
   * accepted entries before it.
   */
  lemma FilterMapPosition<A, B>(xs: seq<A>, f: A -> Option<B>, i: int)
    requires 0 <= i < |xs| && f(xs[i]).Some?
    ensures |FilterMap(xs[..i], f)| < |FilterMap(xs, f)|
    ensures FilterMap(xs, f)[|FilterMap(xs[..i], f)|] == f(xs[i]).value
  {
    assert xs == xs[..i] + [xs[i]] + xs[i + 1..];
    FilterMapKeeps(xs[..i], xs[i], xs[i + 1..], f);
  }

  /**
   * Relative order is kept: of two accepted entries, the earlier one's
   * payload comes strictly earlier in the result.
   */
  lemma FilterMapPreservesOrder<A, B>(xs: seq<A>, f: A -> Option<B>, i: int, j: int)
    requires 0 <= i < j < |xs|
    requires f(xs[i]).Some? && f(xs[j]).Some?
    ensures |FilterMap(xs[..i], f)| < |FilterMap(xs[..j], f)| < |FilterMap(xs, f)|
    ensures FilterMap(xs, f)[|FilterMap(xs[..i], f)|] == f(xs[i]).value
    ensures FilterMap(xs, f)[|FilterMap(xs[..j], f)|] == f(xs[j]).value
  {
    FilterMapPosition(xs, f, i);
    FilterMapPosition(xs, f, j);
    assert xs[..j] == xs[..i] + [xs[i]] + xs[i + 1..j];
    FilterMapKeeps(xs[..i], xs[i], xs[i + 1..j], f);
  }

  /**
   * When every entry is accepted, nothing is dropped: the result lists every
   * entry's payload at that entry's own position.
   */
  lemma {:induction false} FilterMapAllAccepted<A, B>(xs: seq<A>, f: A -> Option<B>)
    requires forall x :: x in xs ==> f(x).Some?
    ensures |FilterMap(xs, f)| == |xs|
    ensures forall k :: 0 <= k < |xs| ==> FilterMap(xs, f)[k] == f(xs[k]).value
    decreases |xs|
  {
    if xs != [] {
      assert xs == [xs[0]] + xs[1..];
      FilterMapAllAccepted(xs[1..], f);
    }
  }

  /**
   * The full contract of narrowing by a projection `f` that exactly undoes
   * the tagging function `inject`: results come from tagged entries, every
   * tagged entry is represented, nothing is returned only when nothing is
   * tagged, and nothing is lost when everything is tagged.
   */
  lemma FilterMapByTag<A, B>(xs: seq<A>, f: A -> Option<B>, inject: B -> A)
    requires forall y :: f(inject(y)) == Some(y)
    requires forall x :: f(x).Some? ==> inject(f(x).value) == x
    ensures forall k :: 0 <= k < |FilterMap(xs, f)| ==> inject(FilterMap(xs, f)[k]) in xs
    ensures forall y :: inject(y) in xs ==> y in FilterMap(xs, f)
    ensures FilterMap(xs, f) == [] <==> forall x :: x in xs ==> f(x).None?
    ensures (forall x :: x in xs ==> f(x).Some?) ==>
      |FilterMap(xs, f)| == |xs| && forall k :: 0 <= k < |xs| ==> xs[k] == inject(FilterMap(xs, f)[k])
  {
    var r := FilterMap(xs, f);
    FilterMapMembers(xs, f);
    forall k | 0 <= k < |r|
      ensures inject(r[k]) in xs
    {
      var x :| x in xs && f(x) == Some(r[k]);
    }
    forall y | inject(y) in xs
      ensures y in r
    {
      assert f(inject(y)).value == y;
    }
    if forall x :: x in xs ==> f(x).Some? {
      FilterMapAllAccepted(xs, f);
    }
  }

  /** Tags every payload with `inject` (building a homogeneous collection). */
  function Tagged<A, B>(ys: seq<B>, inject: B -> A): (r: seq<A>)
    ensures |r| == |ys|
    ensures forall k :: 0 <= k < |ys| ==> r[k] == inject(ys[k])
  {
    seq(|ys|, k requires 0 <= k < |ys| => inject(ys[k]))
  }

  /**
   * Narrowing undoes tagging: filtering a homogeneous collection built by
   * `inject` returns the payloads unchanged.
   */
  lemma {:induction false} FilterMapOfTagged<A, B>(ys: seq<B>, inject: B -> A, f: A -> Option<B>)
    requires forall y :: f(inject(y)) == Some(y)
    ensures FilterMap(Tagged(ys, inject), f) == ys
    decreases |ys|
  {
    if ys != [] {
      var t := Tagged(ys, inject);
      assert t[1..] == Tagged(ys[1..], inject);
      FilterMapOfTagged(ys[1..], inject, f);
      assert f(t[0]) == Some(ys[0]);
      assert ys == [ys[0]] + ys[1..];
    }
  }

  /**
   * Conversely, when every entry is accepted, re-tagging the results
   * rebuilds the collection.
   */
  lemma {:induction false} TaggedOfFilterMap<A, B>(xs: seq<A>, inject: B -> A, f: A -> Option<B>)
    requires forall x :: x in xs ==> f(x).Some? && inject(f(x).value) == x
    ensures Tagged(FilterMap(xs, f), inject) == xs
    decreases |xs|
  {
    if xs != [] {
      assert xs == [xs[0]] + xs[1..];
      TaggedOfFilterMap(xs[1..], inject, f);
      var r := FilterMap(xs, f);
      assert r == [f(xs[0]).value] + FilterMap(xs[1..], f);
      assert Tagged(r, inject)[1..] == Tagged(FilterMap(xs[1..], f), inject);
    }
  }

  /**
   * Narrowing in two stages equals narrowing once with the composed
   * projection (the first stage may discard entries of another kind).
   */
  lemma {:induction false} FilterMapFuse<A, B, C>(xs: seq<A>, f: A -> Option<B>, g: B -> Option<C>, h: A -> Option<C>)
    requires forall x :: h(x) == Bind(f(x), g)
    ensures FilterMap(xs, h) == FilterMap(FilterMap(xs, f), g)
    decreases |xs|
  {
    if xs != [] {
      FilterMapFuse(xs[1..], f, g, h);
      match f(xs[0])
      case None =>
      case Some(b) =>
        var mid := FilterMap(xs, f);
        assert mid == [b] + FilterMap(xs[1..], f);
        assert mid[1..] == FilterMap(xs[1..], f);
    }
  }
}
