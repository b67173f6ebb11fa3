/**
 * The loop shape shared by the typed deserializers: start from a default
 * record and update it once per argument or child, where an update may
 * fail (the source panics). `Fold` is that loop as a function; the methods
 * that run the loop are proved against it.
 */
module Folding {
  import opened Wrappers

  /** Applies `step` to each element of `xs` in order; None once a step fails. */
  function Fold<A, T>(acc: A, xs: seq<T>, step: (A, T) -> Option<A>): Option<A>
  {
    if xs == [] then Some(acc)
    else
      match step(acc, xs[0])
      case None => None
      case Some(next) => Fold(next, xs[1..], step)
  }

  /** Continues a fold from a possibly failed intermediate result. */
  function Then<A, T>(o: Option<A>, xs: seq<T>, step: (A, T) -> Option<A>): Option<A>
  {
    match o
    case None => None
    case Some(acc) => Fold(acc, xs, step)
  }

  /**
   * The elements that are present, in order: the source's
   * `vec![..].iter().filter(|o| o.is_some()).map(|o| o.unwrap())`
   * for one optional entry.
   */
  function Optional<T>(o: Option<T>): (r: seq<T>)
    ensures |r| <= 1
    ensures o.None? <==> r == []
    ensures o.Some? ==> r == [o.value]
  {
    if o.Some? then [o.value] else []
  }

  /** The loop invariant's step: one more element taken from the remaining input. */
  lemma FoldAdvance<A, T>(acc: A, xs: seq<T>, i: nat, step: (A, T) -> Option<A>)
    requires i < |xs|
    ensures Fold(acc, xs[i..], step) == Then(step(acc, xs[i]), xs[i + 1..], step)
  {
    assert xs[i..][0] == xs[i] && xs[i..][1..] == xs[i + 1..];
  }

  /** Folding over a concatenation folds over the first part, then the second. */
  lemma {:induction false} FoldConcat<A, T>(acc: A, xs: seq<T>, ys: seq<T>, step: (A, T) -> Option<A>)
    ensures Fold(acc, xs + ys, step) == Then(Fold(acc, xs, step), ys, step)
    decreases |xs|
  {
    if xs == [] {
      assert xs + ys == ys;
    } else {
      assert (xs + ys)[0] == xs[0] && (xs + ys)[1..] == xs[1..] + ys;
      match step(acc, xs[0])
      case None =>
      case Some(next) => FoldConcat(next, xs[1..], ys, step);
    }
  }

  /** One element more at the end: the last step runs on the fold of the rest. */
  lemma FoldSnoc<A, T>(acc: A, xs: seq<T>, x: T, step: (A, T) -> Option<A>)
    ensures Fold(acc, xs + [x], step) == match Fold(acc, xs, step) case None => None case Some(a) => step(a, x)
  {
    FoldConcat(acc, xs, [x], step);
    match Fold(acc, xs, step)
    case None =>
    case Some(a) =>
      assert [x][0] == x && [x][1..] == [];
      match step(a, x)
      case None =>
      case Some(b) =>
        assert Fold(b, [x][1..], step) == Some(b);
  }

  /** An optional element is one step when present and no step when absent. */
  lemma FoldOptional<A, T>(acc: A, o: Option<T>, step: (A, T) -> Option<A>)
    ensures Fold(acc, Optional(o), step) == if o.Some? then step(acc, o.value) else Some(acc)
  {
    if o.Some? {
      var r := Optional(o);
      assert r[1..] == [];
    }
  }

  /** A fold succeeds only if every element it reached could be stepped over. */
  lemma {:induction false} FoldKeeps<A, T>(acc: A, xs: seq<T>, step: (A, T) -> Option<A>, inv: A -> bool)
    requires inv(acc)
    requires forall a: A, x: T | inv(a) && x in xs && step(a, x).Some? :: inv(step(a, x).value)
    ensures Fold(acc, xs, step).Some? ==> inv(Fold(acc, xs, step).value)
    decreases |xs|
  {
    if xs != [] {
      match step(acc, xs[0])
      case None =>
      case Some(next) =>
        assert xs[0] in xs;
        forall a: A, x: T | inv(a) && x in xs[1..] && step(a, x).Some?
          ensures inv(step(a, x).value)
        {
          assert x in xs;
        }
        FoldKeeps(next, xs[1..], step, inv);
    }
  }

  /** A fold whose step cannot fail on any of the elements does not fail. */
  lemma {:induction false} FoldTotal<A, T>(acc: A, xs: seq<T>, step: (A, T) -> Option<A>)
    requires forall a: A, x: T | x in xs :: step(a, x).Some?
    ensures Fold(acc, xs, step).Some?
    decreases |xs|
  {
    if xs != [] {
      assert xs[0] in xs;
      forall a: A, x: T | x in xs[1..]
        ensures step(a, x).Some?
      {
        assert x in xs;
      }
      FoldTotal(step(acc, xs[0]).value, xs[1..], step);
    }
  }

  /** A fold fails as soon as one element cannot be stepped over from any state. */
  lemma {:induction false} FoldFails<A, T>(acc: A, xs: seq<T>, step: (A, T) -> Option<A>, k: nat)
    requires k < |xs|
    requires forall a: A :: step(a, xs[k]).None?
    ensures Fold(acc, xs, step).None?
    decreases k
  {
    if k > 0 {
      match step(acc, xs[0])
      case None =>
      case Some(next) =>
        assert xs[1..][k - 1] == xs[k];
        FoldFails(next, xs[1..], step, k - 1);
    }
  }

  /**
   * Whether a successful fold ends in a state with property `has`, when each
   * step sets `has` exactly on the elements that `hit` and otherwise keeps it:
   * it does iff the start state has it or some element hits.
   */
  lemma {:induction false} FoldPresence<A, T>(acc: A, xs: seq<T>, step: (A, T) -> Option<A>, has: A -> bool, hit: T -> bool)
    requires forall a: A, x: T | x in xs && step(a, x).Some? :: has(step(a, x).value) == (hit(x) || has(a))
    ensures Fold(acc, xs, step).Some? ==> (has(Fold(acc, xs, step).value) <==> has(acc) || exists x | x in xs :: hit(x))
    decreases |xs|
  {
    if xs != [] {
      match step(acc, xs[0])
      case None =>
      case Some(next) =>
        assert xs[0] in xs;
        forall a: A, x: T | x in xs[1..] && step(a, x).Some?
          ensures has(step(a, x).value) == (hit(x) || has(a))
        {
          assert x in xs;
        }
        FoldPresence(next, xs[1..], step, has, hit);
        if exists x | x in xs :: hit(x) {
          var x :| x in xs && hit(x);
          if x != xs[0] {
            assert x in xs[1..];
          }
        }
    }
  }

  /** One element: one step. */
  lemma FoldOne<A, T>(acc: A, x: T, step: (A, T) -> Option<A>)
    ensures Fold(acc, [x], step) == step(acc, x)
  {
    assert [x][1..] == [];
    match step(acc, x)
    case None =>
    case Some(a) => assert Fold(a, [x][1..], step) == Some(a);
  }

  /** Two elements, each stepped over. */
  lemma FoldTwo<A, T>(acc: A, x: T, y: T, step: (A, T) -> Option<A>, a1: A, a2: A)
    requires step(acc, x) == Some(a1) && step(a1, y) == Some(a2)
    ensures Fold(acc, [x, y], step) == Some(a2)
  {
    assert [x, y][1..] == [y];
    FoldOne(a1, y, step);
  }

  /** Three elements, each stepped over. */
  lemma FoldThree<A, T>(acc: A, x: T, y: T, z: T, step: (A, T) -> Option<A>, a1: A, a2: A, a3: A)
    requires step(acc, x) == Some(a1) && step(a1, y) == Some(a2) && step(a2, z) == Some(a3)
    ensures Fold(acc, [x, y, z], step) == Some(a3)
  {
    assert [x, y, z][1..] == [y, z];
    FoldTwo(a1, y, z, step, a2, a3);
  }

  /** Four elements, each stepped over. */
  lemma FoldFour<A, T>(acc: A, w: T, x: T, y: T, z: T, step: (A, T) -> Option<A>, a1: A, a2: A, a3: A, a4: A)
    requires step(acc, w) == Some(a1) && step(a1, x) == Some(a2) && step(a2, y) == Some(a3) && step(a3, z) == Some(a4)
    ensures Fold(acc, [w, x, y, z], step) == Some(a4)
  {
    assert [w, x, y, z][1..] == [x, y, z];
    FoldThree(a1, x, y, z, step, a2, a3, a4);
  }

  /** Each element in order, the source's `iter().map(f).collect()`. */
  function Map<E, T>(es: seq<E>, f: E -> T): (r: seq<T>)
    ensures |r| == |es| && forall i | 0 <= i < |es| :: r[i] == f(es[i])
  {
    if es == [] then [] else [f(es[0])] + Map(es[1..], f)
  }

  /** Mapping one more element appends its image. */
  lemma MapSnoc<E, T>(es: seq<E>, e: E, f: E -> T)
    ensures Map(es + [e], f) == Map(es, f) + [f(e)]
  {
    assert |Map(es + [e], f)| == |Map(es, f) + [f(e)]|;
  }

  /** Mapping a concatenation maps each part. */
  lemma MapConcat<E, T>(xs: seq<E>, ys: seq<E>, f: E -> T)
    ensures Map(xs + ys, f) == Map(xs, f) + Map(ys, f)
  {
    assert |Map(xs + ys, f)| == |Map(xs, f) + Map(ys, f)|;
    forall i | 0 <= i < |xs + ys|
      ensures Map(xs + ys, f)[i] == (Map(xs, f) + Map(ys, f))[i]
    {
      if i >= |xs| {
        assert (xs + ys)[i] == ys[i - |xs|];
      }
    }
  }

  lemma MapTwo<E, T>(x: E, y: E, f: E -> T)
    ensures Map([x, y], f) == [f(x), f(y)]
  {
    assert [x, y][1..] == [y];
  }

  /** Mapping eight runs put together maps each run in place. */
  lemma MapJoin8<E, T>(a: seq<E>, b: seq<E>, c: seq<E>, d: seq<E>, e: seq<E>, g: seq<E>, h: seq<E>, i: seq<E>, f: E -> T)
    ensures Map(a + b + c + d + e + g + h + i, f)
         == Map(a, f) + Map(b, f) + Map(c, f) + Map(d, f) + Map(e, f) + Map(g, f) + Map(h, f) + Map(i, f)
  {
    MapConcat(a, b, f);
    MapConcat(a + b, c, f);
    MapConcat(a + b + c, d, f);
    MapConcat(a + b + c + d, e, f);
    MapConcat(a + b + c + d + e, g, f);
    MapConcat(a + b + c + d + e + g, h, f);
    MapConcat(a + b + c + d + e + g + h, i, f);
  }

  /** Mapping nine runs put together maps each run in place. */
  lemma MapJoin9<E, T>(a: seq<E>, b: seq<E>, c: seq<E>, d: seq<E>, e: seq<E>, g: seq<E>, h: seq<E>, i: seq<E>,
                       j: seq<E>, f: E -> T)
    ensures Map(a + b + c + d + e + g + h + i + j, f)
         == Map(a, f) + Map(b, f) + Map(c, f) + Map(d, f) + Map(e, f) + Map(g, f) + Map(h, f) + Map(i, f) + Map(j, f)
  {
    MapJoin8(a, b, c, d, e, g, h, i, f);
    MapConcat(a + b + c + d + e + g + h + i, j, f);
  }

  /** Mapping an optional entry maps the entry when it is present. */
  lemma MapOptional<E, T>(o: Option<E>, f: E -> T)
    ensures Map(Optional(o), f) == if o.Some? then [f(o.value)] else []
  {
  }

  /** Each element read in order; None as soon as one cannot be read (the `unwrap` in a mapped reader). */
  function MapAll<T, E>(xs: seq<T>, read: T -> Option<E>): (r: Option<seq<E>>)
    ensures r.Some? ==> |r.value| == |xs| && forall i | 0 <= i < |xs| :: read(xs[i]) == Some(r.value[i])
    ensures r.None? ==> exists i | 0 <= i < |xs| :: read(xs[i]).None?
  {
    if xs == [] then Some([])
    else
      match read(xs[0])
      case None => None
      case Some(e) =>
        match MapAll(xs[1..], read)
        case None => None
        case Some(rest) => Some([e] + rest)
  }

  /** Reading back the images of `es` under a `write` that `read` inverts gives `es`. */
  lemma {:induction false} MapAllMapped<E, T>(es: seq<E>, write: E -> T, read: T -> Option<E>)
    requires forall e | e in es :: read(write(e)) == Some(e)
    ensures MapAll(Map(es, write), read) == Some(es)
  {
    if es != [] {
      var xs := Map(es, write);
      assert es[0] in es && xs[0] == write(es[0]);
      assert xs[1..] == Map(es[1..], write);
      assert forall e | e in es[1..] :: e in es;
      MapAllMapped(es[1..], write, read);
      assert es == [es[0]] + es[1..];
    }
  }

  /** `add` applied to each element in order. */
  function Appended<A, E>(acc: A, es: seq<E>, add: (A, E) -> A): A
  {
    if es == [] then acc else Appended(add(acc, es[0]), es[1..], add)
  }

  /** Folding over the written forms of `es`, where each written form is read back by one `add`. */
  lemma {:induction false} FoldEach<A, E, T>(acc: A, es: seq<E>, items: seq<T>, step: (A, T) -> Option<A>, add: (A, E) -> A)
    requires |items| == |es|
    requires forall a: A, i | 0 <= i < |es| :: step(a, items[i]) == Some(add(a, es[i]))
    ensures Fold(acc, items, step) == Some(Appended(acc, es, add))
    decreases |es|
  {
    if es != [] {
      assert step(acc, items[0]) == Some(add(acc, es[0]));
      forall a: A, i | 0 <= i < |es| - 1
        ensures step(a, items[1..][i]) == Some(add(a, es[1..][i]))
      {
        assert items[1..][i] == items[i + 1] && es[1..][i] == es[i + 1];
      }
      FoldEach(add(acc, es[0]), es[1..], items[1..], step, add);
    }
  }

  /** Folding over the images of `es` under `write`, where `step` reads each image back by one `add`. */
  lemma {:induction false} FoldMapped<A, E, T>(acc: A, es: seq<E>, write: E -> T, step: (A, T) -> Option<A>, add: (A, E) -> A)
    requires forall a: A, e | e in es :: step(a, write(e)) == Some(add(a, e))
    ensures Fold(acc, Map(es, write), step) == Some(Appended(acc, es, add))
    decreases |es|
  {
    if es != [] {
      assert es[0] in es;
      assert Map(es, write)[1..] == Map(es[1..], write);
      FoldMapped(add(acc, es[0]), es[1..], write, step, add);
    }
  }

  /** The `get`/`put` laws at one accumulator (stated apart so that the list terms are typed arguments). */
  lemma ListLaws<A, F>(a: A, xs: seq<F>, ys: seq<F>, get: A -> seq<F>, put: (A, seq<F>) -> A)
    requires forall a: A, xs: seq<F> {:trigger get(put(a, xs))} :: get(put(a, xs)) == xs
    requires forall a: A, xs: seq<F>, ys: seq<F> {:trigger put(put(a, xs), ys)} :: put(put(a, xs), ys) == put(a, ys)
    ensures get(put(a, xs)) == xs && put(put(a, xs), ys) == put(a, ys)
  {
  }

  /**
   * Folding over items each of which the step reads back by appending one
   * value to a list inside the accumulator (`get`/`put` view that list)
   * appends all those values, in order.
   */
  lemma {:induction false} FoldCollect<A, F, T>(acc: A, items: seq<T>, backs: seq<F>, get: A -> seq<F>,
                                                put: (A, seq<F>) -> A, step: (A, T) -> Option<A>)
    requires |items| == |backs|
    requires forall a: A {:trigger put(a, get(a))} :: put(a, get(a)) == a
    requires forall a: A, xs: seq<F> {:trigger get(put(a, xs))} :: get(put(a, xs)) == xs
    requires forall a: A, xs: seq<F>, ys: seq<F> {:trigger put(put(a, xs), ys)} :: put(put(a, xs), ys) == put(a, ys)
    requires forall a: A, i | 0 <= i < |items| :: step(a, items[i]) == Some(put(a, get(a) + [backs[i]]))
    ensures Fold(acc, items, step) == Some(put(acc, get(acc) + backs))
    decreases |items|
  {
    if items == [] {
      assert get(acc) + backs == get(acc);
    } else {
      var next := put(acc, get(acc) + [backs[0]]);
      assert step(acc, items[0]) == Some(next);
      forall a: A, i | 0 <= i < |items| - 1
        ensures step(a, items[1..][i]) == Some(put(a, get(a) + [backs[1..][i]]))
      {
        assert items[1..][i] == items[i + 1] && backs[1..][i] == backs[i + 1];
      }
      FoldCollect(next, items[1..], backs[1..], get, put, step);
      ListLaws(acc, get(acc) + [backs[0]], get(acc) + backs, get, put);
      assert backs == [backs[0]] + backs[1..];
      assert get(next) + backs[1..] == get(acc) + backs;
    }
  }

  /** Folding over two parts one after the other. */
  lemma FoldJoin<A, T>(acc: A, xs: seq<T>, ys: seq<T>, step: (A, T) -> Option<A>, mid: A, end: A)
    requires Fold(acc, xs, step) == Some(mid) && Fold(mid, ys, step) == Some(end)
    ensures Fold(acc, xs + ys, step) == Some(end)
  {
    FoldConcat(acc, xs, ys, step);
  }

  /** Folding over five parts one after the other. */
  lemma FoldJoin5<A, T>(a0: A, x1: seq<T>, x2: seq<T>, x3: seq<T>, x4: seq<T>, x5: seq<T>, step: (A, T) -> Option<A>,
                        a1: A, a2: A, a3: A, a4: A, a5: A)
    requires Fold(a0, x1, step) == Some(a1) && Fold(a1, x2, step) == Some(a2) && Fold(a2, x3, step) == Some(a3)
    requires Fold(a3, x4, step) == Some(a4) && Fold(a4, x5, step) == Some(a5)
    ensures Fold(a0, x1 + x2 + x3 + x4 + x5, step) == Some(a5)
  {
    FoldJoin(a0, x1, x2, step, a1, a2);
    FoldJoin(a0, x1 + x2, x3, step, a2, a3);
    FoldJoin(a0, x1 + x2 + x3, x4, step, a3, a4);
    FoldJoin(a0, x1 + x2 + x3 + x4, x5, step, a4, a5);
  }

  /** Folding over eight parts one after the other. */
  lemma FoldJoin8<A, T>(a0: A, x1: seq<T>, x2: seq<T>, x3: seq<T>, x4: seq<T>, x5: seq<T>, x6: seq<T>, x7: seq<T>,
                        x8: seq<T>, step: (A, T) -> Option<A>, a1: A, a2: A, a3: A, a4: A, a5: A, a6: A, a7: A, a8: A)
    requires Fold(a0, x1, step) == Some(a1) && Fold(a1, x2, step) == Some(a2) && Fold(a2, x3, step) == Some(a3)
    requires Fold(a3, x4, step) == Some(a4) && Fold(a4, x5, step) == Some(a5) && Fold(a5, x6, step) == Some(a6)
    requires Fold(a6, x7, step) == Some(a7) && Fold(a7, x8, step) == Some(a8)
    ensures Fold(a0, x1 + x2 + x3 + x4 + x5 + x6 + x7 + x8, step) == Some(a8)
  {
    FoldJoin5(a0, x1, x2, x3, x4, x5, step, a1, a2, a3, a4, a5);
    FoldJoin(a0, x1 + x2 + x3 + x4 + x5, x6, step, a5, a6);
    FoldJoin(a0, x1 + x2 + x3 + x4 + x5 + x6, x7, step, a6, a7);
    FoldJoin(a0, x1 + x2 + x3 + x4 + x5 + x6 + x7, x8, step, a7, a8);
  }
}
