/** Concatenating a sequence of groups, and where each group lands. */
module Concat {

  /** Concatenation regrouped. */
  lemma {:induction false} Assoc<T>(a: seq<T>, b: seq<T>, c: seq<T>)
    ensures (a + b) + c == a + (b + c)
  {
  }

  /** One group per element of `xs`, in order. */
  function MapGroups<A, T>(f: A -> seq<T>, xs: seq<A>): (r: seq<seq<T>>)
    ensures |r| == |xs|
  {
    seq(|xs|, i requires 0 <= i < |xs| => f(xs[i]))
  }

  lemma {:induction false} MapGroupsSnoc<A, T>(f: A -> seq<T>, xs: seq<A>, i: nat)
    requires i < |xs|
    ensures MapGroups(f, xs[..i + 1]) == MapGroups(f, xs[..i]) + [f(xs[i])]
  {
    var a, b := MapGroups(f, xs[..i + 1]), MapGroups(f, xs[..i]);
    forall k | 0 <= k < i
      ensures a[k] == b[k]
    {
      assert xs[..i + 1][k] == xs[..i][k];
    }
  }

  /** `f` applied to each element of `xs`, on all of which it is defined. */
  function MapDefined<A, B>(f: A --> B, xs: seq<A>): (r: seq<B>)
    requires forall x :: x in xs ==> f.requires(x)
    ensures |r| == |xs|
  {
    seq(|xs|, i requires 0 <= i < |xs| => f(xs[i]))
  }

  lemma {:induction false} MapDefinedSnoc<A, B>(f: A --> B, xs: seq<A>, x: A)
    requires forall y :: y in xs ==> f.requires(y)
    requires f.requires(x)
    ensures MapDefined(f, xs + [x]) == MapDefined(f, xs) + [f(x)]
  {
    var a, b := MapDefined(f, xs + [x]), MapDefined(f, xs);
    forall k | 0 <= k < |xs|
      ensures a[k] == b[k]
    {
      assert (xs + [x])[k] == xs[k];
    }
    assert (xs + [x])[|xs|] == x;
  }

  function Flatten<T>(gs: seq<seq<T>>): seq<T>
  {
    if gs == [] then [] else gs[0] + Flatten(gs[1..])
  }

  lemma {:induction false} FlattenAppend<T>(a: seq<seq<T>>, b: seq<seq<T>>)
    ensures Flatten(a + b) == Flatten(a) + Flatten(b)
  {
    if a == [] {
      assert a + b == b;
    } else {
      assert (a + b)[1..] == a[1..] + b;
      FlattenAppend(a[1..], b);
    }
  }

  lemma {:induction false} FlattenSnoc<T>(gs: seq<seq<T>>, g: seq<T>)
    ensures Flatten(gs + [g]) == Flatten(gs) + g
  {
    FlattenAppend(gs, [g]);
    assert [g][1..] == [];
    assert Flatten([g]) == g + Flatten([]);
  }

  /** When every group has `n` elements, group `k` occupies positions
      `n * k` to `n * k + n`. */
  lemma {:induction false} FlattenUniform<T>(gs: seq<seq<T>>, n: nat, k: nat)
    requires forall i :: 0 <= i < |gs| ==> |gs[i]| == n
    requires k < |gs|
    ensures |Flatten(gs)| == n * |gs|
    ensures n * k + n <= n * |gs|
    ensures Flatten(gs)[n * k .. n * k + n] == gs[k]
  {
    FlattenLength(gs, n);
    if k == 0 {
      assert Flatten(gs)[..n] == gs[0];
    } else {
      FlattenUniform(gs[1..], n, k - 1);
      assert gs[1..][k - 1] == gs[k];
      assert n * k == n + n * (k - 1);
      assert n * |gs| == n + n * (|gs| - 1);
      assert Flatten(gs)[n * k .. n * k + n] == Flatten(gs[1..])[n * (k - 1) .. n * (k - 1) + n];
    }
  }

  /** A slice of the middle part of a concatenation. */
  lemma {:induction false} SliceInside<T>(a: seq<T>, b: seq<T>, c: seq<T>, i: nat, j: nat)
    requires i <= j <= |b|
    ensures (a + b + c)[|a| + i .. |a| + j] == b[i..j]
  {
  }

  /** A slice of `b` inside `[x] + ([y] + b) + [z]` sits two places later. */
  lemma {:induction false} SliceFramed<T>(x: T, y: T, z: T, b: seq<T>, i: nat, j: nat)
    requires i <= j <= |b|
    ensures |[x] + ([y] + b) + [z]| == |b| + 3
    ensures ([x] + ([y] + b) + [z])[2 + i .. 2 + j] == b[i..j]
  {
    Assoc([x], [y], b);
    SliceInside([x, y], b, [z], i, j);
  }

  lemma {:induction false} FlattenMember<T>(gs: seq<seq<T>>, x: T)
    requires x in Flatten(gs)
    ensures exists i :: 0 <= i < |gs| && x in gs[i]
  {
    if x !in gs[0] {
      FlattenMember(gs[1..], x);
      var i :| 0 <= i < |gs[1..]| && x in gs[1..][i];
      assert gs[i + 1] == gs[1..][i];
    }
  }

  lemma {:induction false} FlattenLength<T>(gs: seq<seq<T>>, n: nat)
    requires forall i :: 0 <= i < |gs| ==> |gs[i]| == n
    ensures |Flatten(gs)| == n * |gs|
  {
    if gs != [] {
      FlattenLength(gs[1..], n);
      assert n * |gs| == n + n * (|gs| - 1);
    }
  }
}
