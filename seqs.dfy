// Generic sequence helpers shared by the models: map, flat-map, filter and
// appending without repeats.

module Seqs {
  import opened Text

  /** `xs.flatMap(f)`. */
  function FlatMap<A, B>(xs: seq<A>, f: A -> seq<B>): seq<B>
    decreases |xs|
  {
    if xs == [] then [] else f(xs[0]) + FlatMap(xs[1..], f)
  }

  lemma {:induction false} FlatMapAppend<A, B>(xs: seq<A>, x: A, f: A -> seq<B>)
    ensures FlatMap(xs + [x], f) == FlatMap(xs, f) + f(x)
    decreases |xs|
  {
    if xs == [] {
      assert [x][1..] == [];
    } else {
      assert (xs + [x])[1..] == xs[1..] + [x];
      FlatMapAppend(xs[1..], x, f);
    }
  }

  /** Extending a prefix by one element extends its flat-map by that element's image. */
  lemma FlatMapPrefix<A, B>(xs: seq<A>, i: nat, f: A -> seq<B>)
    requires i < |xs|
    ensures FlatMap(xs[..i + 1], f) == FlatMap(xs[..i], f) + f(xs[i])
  {
    assert xs[..i + 1] == xs[..i] + [xs[i]];
    FlatMapAppend(xs[..i], xs[i], f);
  }

  lemma {:induction false} FlatMapSkips<A, B>(xs: seq<A>, ys: seq<A>, f: A -> seq<B>)
    requires forall i :: 0 <= i < |xs| ==> f(xs[i]) == []
    ensures FlatMap(xs + ys, f) == FlatMap(ys, f)
    decreases |xs|
  {
    if xs != [] {
      assert (xs + ys)[1..] == xs[1..] + ys;
      FlatMapSkips(xs[1..], ys, f);
    } else {
      assert xs + ys == ys;
    }
  }

  /** `xs.map(f)`. */
  function MapAll<A, B>(xs: seq<A>, f: A -> B): seq<B>
    decreases |xs|
  {
    if xs == [] then [] else [f(xs[0])] + MapAll(xs[1..], f)
  }

  lemma {:induction false} MapAllAppend<A, B>(xs: seq<A>, x: A, f: A -> B)
    ensures MapAll(xs + [x], f) == MapAll(xs, f) + [f(x)]
    decreases |xs|
  {
    if xs == [] {
      assert [x][1..] == [];
    } else {
      assert (xs + [x])[1..] == xs[1..] + [x];
      MapAllAppend(xs[1..], x, f);
    }
  }

  /** Extending a prefix by one element extends its map by that element's image. */
  lemma MapAllPrefix<A, B>(xs: seq<A>, i: nat, f: A -> B)
    requires i < |xs|
    ensures MapAll(xs[..i + 1], f) == MapAll(xs[..i], f) + [f(xs[i])]
  {
    assert xs[..i + 1] == xs[..i] + [xs[i]];
    MapAllAppend(xs[..i], xs[i], f);
  }

  /** One result per element, in order. */
  lemma {:induction false} MapAllIndex<A, B>(xs: seq<A>, f: A -> B)
    ensures |MapAll(xs, f)| == |xs|
    ensures forall i :: 0 <= i < |xs| ==> MapAll(xs, f)[i] == f(xs[i])
    decreases |xs|
  {
    if xs != [] {
      MapAllIndex(xs[1..], f);
    }
  }

  /** `xs.filter(p)` / LINQ Where: the elements that satisfy `p`, in order. */
  function Keep<T>(xs: seq<T>, p: T -> bool): (r: seq<T>)
    ensures |r| <= |xs|
    ensures forall i :: 0 <= i < |r| ==> p(r[i])
    decreases |xs|
  {
    if xs == [] then [] else if p(xs[0]) then [xs[0]] + Keep(xs[1..], p) else Keep(xs[1..], p)
  }

  /** An element is kept exactly when it is there and satisfies the predicate. */
  lemma {:induction false} KeepMembers<T>(xs: seq<T>, p: T -> bool, x: T)
    ensures x in Keep(xs, p) <==> x in xs && p(x)
    decreases |xs|
  {
    if xs != [] {
      KeepMembers(xs[1..], p, x);
      assert xs == [xs[0]] + xs[1..];
    }
  }

  /** Filtering with a predicate every element satisfies keeps the sequence. */
  lemma {:induction false} KeepAll<T>(xs: seq<T>, p: T -> bool)
    requires forall i :: 0 <= i < |xs| ==> p(xs[i])
    ensures Keep(xs, p) == xs
    decreases |xs|
  {
    if xs != [] {
      KeepAll(xs[1..], p);
      assert xs == [xs[0]] + xs[1..];
    }
  }

  /** Filters with predicates that agree on every element give the same result. */
  lemma {:induction false} KeepSame<T>(xs: seq<T>, p: T -> bool, q: T -> bool)
    requires forall i :: 0 <= i < |xs| ==> p(xs[i]) == q(xs[i])
    ensures Keep(xs, p) == Keep(xs, q)
    decreases |xs|
  {
    if xs != [] {
      KeepSame(xs[1..], p, q);
    }
  }

  /** Filtering with a predicate no element satisfies leaves nothing. */
  lemma {:induction false} KeepNone<T>(xs: seq<T>, p: T -> bool)
    requires forall i :: 0 <= i < |xs| ==> !p(xs[i])
    ensures Keep(xs, p) == []
    decreases |xs|
  {
    if xs != [] {
      KeepNone(xs[1..], p);
    }
  }

  /** The found values appended to `start`, each only when it is not already there. */
  function AppendNew<T(==)>(start: seq<T>, found: seq<Option<T>>): (r: seq<T>)
    decreases |found|
  {
    if found == [] then start
    else
      var last := found[|found| - 1];
      var prev := AppendNew(start, found[..|found| - 1]);
      if last.Some? && last.value !in prev then prev + [last.value] else prev
  }

  /**
   * The values of `start` come first and unchanged; the result holds exactly the
   * values of `start` and the found ones; every value after `start` is new.
   */
  lemma {:induction false} AppendNewSpec<T>(start: seq<T>, found: seq<Option<T>>)
    ensures start <= AppendNew(start, found)
    ensures forall x :: x in AppendNew(start, found) <==> x in start || Some(x) in found
    ensures forall k, m :: 0 <= m < k < |AppendNew(start, found)| && k >= |start| ==>
      AppendNew(start, found)[m] != AppendNew(start, found)[k]
    decreases |found|
  {
    if found != [] {
      var init := found[..|found| - 1];
      AppendNewSpec(start, init);
      assert found == init + [found[|found| - 1]];
      forall x ensures Some(x) in found <==> Some(x) in init || found[|found| - 1] == Some(x) {
      }
    }
  }

  /** The collecting loop: append each found value unless it is already there. */
  method AppendEachNew<T(==)>(start: seq<T>, found: seq<Option<T>>) returns (ts: seq<T>)
    ensures ts == AppendNew(start, found)
  {
    ts := start;
    var i := 0;
    while i < |found|
      invariant 0 <= i <= |found|
      invariant ts == AppendNew(start, found[..i])
    {
      assert found[..i + 1][..i] == found[..i];
      var f := found[i];
      if f.Some? && f.value !in ts {
        ts := ts + [f.value];
      }
      i := i + 1;
    }
    assert found[..i] == found;
  }
  /** Filtering a sequence extended by one element extends the filtered sequence by it, when it passes. */
  lemma {:induction false} KeepAppend<T>(xs: seq<T>, x: T, p: T -> bool)
    ensures Keep(xs + [x], p) == Keep(xs, p) + (if p(x) then [x] else [])
    decreases |xs|
  {
    if xs == [] {
      assert [x][1..] == [];
    } else {
      assert (xs + [x])[1..] == xs[1..] + [x];
      KeepAppend(xs[1..], x, p);
    }
  }

  /** The index of the first element at or after `from` that satisfies `p`, if any. */
  function FirstIndexFrom<T>(xs: seq<T>, p: T -> bool, from: nat): (r: Option<nat>)
    requires from <= |xs|
    ensures r.Some? ==> from <= r.value < |xs| && p(xs[r.value])
    ensures r.Some? ==> forall j :: from <= j < r.value ==> !p(xs[j])
    ensures r.None? ==> forall j :: from <= j < |xs| ==> !p(xs[j])
    decreases |xs| - from
  {
    if from == |xs| then None
    else if p(xs[from]) then Some(from)
    else FirstIndexFrom(xs, p, from + 1)
  }

  /** An index is the first one found exactly when it satisfies `p` and none before it does. */
  lemma FirstIndexAt<T>(xs: seq<T>, p: T -> bool, i: nat)
    requires i < |xs| && p(xs[i])
    requires forall j :: 0 <= j < i ==> !p(xs[j])
    ensures FirstIndexFrom(xs, p, 0) == Some(i)
  {
  }

  /** LINQ FirstOrDefault(p): the first element that satisfies `p`, if any. */
  function FirstWhere<T>(xs: seq<T>, p: T -> bool): (r: Option<T>)
    ensures r.Some? ==> r.value in xs && p(r.value)
    ensures r.None? ==> forall i :: 0 <= i < |xs| ==> !p(xs[i])
  {
    var k := FirstIndexFrom(xs, p, 0);
    if k.Some? then Some(xs[k.value]) else None
  }

  /** LINQ FirstOrDefault(): the first element, if any. */
  function FirstOf<T>(xs: seq<T>): Option<T>
  {
    if xs == [] then None else Some(xs[0])
  }

  /** Filtering by a predicate and by its negation splits the sequence: the two parts add up to it. */
  lemma {:induction false} KeepComplement<T>(xs: seq<T>, p: T -> bool, q: T -> bool)
    requires forall i :: 0 <= i < |xs| ==> q(xs[i]) == !p(xs[i])
    ensures |Keep(xs, p)| + |Keep(xs, q)| == |xs|
    decreases |xs|
  {
    if xs != [] {
      KeepComplement(xs[1..], p, q);
    }
  }
}
