/** Middleware composition (src/proto/middleware.rs). A middleware maps a value
    to `Ok(value)` to continue or `Err(response)` to stop. What an individual
    middleware does is left open: `run` interprets the named ones. */
module Middlewares {
  import opened Wrappers

  type MiddlewareId = nat

  /** A middleware: a named one, a `Box` around another, or a `Vec` of them
      (which the source makes a middleware in its own right). */
  datatype Middleware =
    | Func(id: MiddlewareId)
    | Boxed(inner: Middleware)
    | Stack(items: seq<Middleware>)

  /** `MiddleWare::call`. A `Box` delegates to its contents; a `Vec` folds. */
  function Apply<T, E>(run: (MiddlewareId, T) -> Result<T, E>, m: Middleware, x: T): Result<T, E>
    decreases m, 1
  {
    match m
    case Func(id) => run(id, x)
    case Boxed(inner) => Apply(run, inner, x)
    case Stack(items) => Fold(run, items, x)
  }

  /** The `Vec` implementation as written: `iter().fold(ok(x), |acc, m| acc.and_then(m))`,
      a left fold that chains each middleware onto the accumulated result. */
  function Fold<T, E>(run: (MiddlewareId, T) -> Result<T, E>, items: seq<Middleware>, x: T): Result<T, E>
    decreases items, 0
  {
    if items == [] then Ok(x)
    else
      match Fold(run, items[..|items| - 1], x)
      case Err(e) => Err(e)
      case Ok(v) => Apply(run, items[|items| - 1], v)
  }

  /** The short-circuit reading of a chain: run the first middleware; on `Ok`
      pass its value to the rest, on `Err` stop with that response. */
  function Chain<T, E>(run: (MiddlewareId, T) -> Result<T, E>, items: seq<Middleware>, x: T): Result<T, E>
    decreases items
  {
    if items == [] then Ok(x)
    else
      match Apply(run, items[0], x)
      case Err(e) => Err(e)
      case Ok(v) => Chain(run, items[1..], v)
  }

  /** Continue a result with a chain, as `and_then` does. */
  function AndThenChain<T, E>(run: (MiddlewareId, T) -> Result<T, E>, r: Result<T, E>, items: seq<Middleware>): Result<T, E> {
    match r
    case Err(e) => Err(e)
    case Ok(v) => Chain(run, items, v)
  }

  /** Running `a ++ b` as one chain is running `a`, then `b` on its `Ok` value. */
  lemma {:induction false} ChainAppend<T, E>(run: (MiddlewareId, T) -> Result<T, E>, a: seq<Middleware>, b: seq<Middleware>, x: T)
    ensures Chain(run, a + b, x) == AndThenChain(run, Chain(run, a, x), b)
    decreases a
  {
    if a == [] {
      assert a + b == b;
    } else {
      assert (a + b)[0] == a[0];
      assert (a + b)[1..] == a[1..] + b;
      match Apply(run, a[0], x)
      case Err(e) =>
      case Ok(v) => ChainAppend(run, a[1..], b, v);
    }
  }

  /** The fold as written and the short-circuit chain agree on every input. */
  lemma {:induction false} FoldIsChain<T, E>(run: (MiddlewareId, T) -> Result<T, E>, items: seq<Middleware>, x: T)
    ensures Fold(run, items, x) == Chain(run, items, x)
    decreases |items|
  {
    if items != [] {
      var init, last := items[..|items| - 1], items[|items| - 1];
      FoldIsChain(run, init, x);
      ChainAppend(run, init, [last], x);
      assert init + [last] == items;
      match Chain(run, init, x)
      case Err(e) =>
      case Ok(v) =>
        assert Chain(run, [last], v) == Apply(run, last, v) by {
          assert [last][1..] == [];
        }
    }
  }

  /** A stack of middlewares behaves like the short-circuit chain of its items. */
  lemma StackIsChain<T, E>(run: (MiddlewareId, T) -> Result<T, E>, items: seq<Middleware>, x: T)
    ensures Apply(run, Stack(items), x) == Chain(run, items, x)
  {
    FoldIsChain(run, items, x);
  }

  /** Short circuit: once a prefix fails with `e`, nothing after it runs and
      the whole stack fails with `e`, whatever follows. */
  lemma ShortCircuit<T, E>(run: (MiddlewareId, T) -> Result<T, E>, a: seq<Middleware>, b: seq<Middleware>, x: T, e: E)
    requires Apply(run, Stack(a), x) == Err(e)
    ensures Apply(run, Stack(a + b), x) == Err(e)
  {
    StackIsChain(run, a, x);
    StackIsChain(run, a + b, x);
    ChainAppend(run, a, b, x);
  }

  /** Stacks compose: one stack of `a ++ b` is the stack `a` followed by the stack `b`. */
  lemma StackAppend<T, E>(run: (MiddlewareId, T) -> Result<T, E>, a: seq<Middleware>, b: seq<Middleware>, x: T)
    ensures Apply(run, Stack(a + b), x) == Apply(run, Stack([Stack(a), Stack(b)]), x)
  {
    StackIsChain(run, a + b, x);
    ChainAppend(run, a, b, x);
    StackIsChain(run, [Stack(a), Stack(b)], x);
    StackIsChain(run, a, x);
    match Chain(run, a, x)
    case Err(e) =>
    case Ok(v) =>
      StackIsChain(run, b, v);
      assert [Stack(a), Stack(b)][1..] == [Stack(b)];
      assert Chain(run, [Stack(a), Stack(b)], x) == Chain(run, [Stack(b)], v);
      assert Chain(run, [Stack(b)], v) == Chain(run, b, v) by {
        assert [Stack(b)][1..] == [];
        match Chain(run, b, v)
        case Err(e2) =>
        case Ok(w) => assert Chain(run, [Stack(b)], v) == Chain(run, [], w);
      }
  }

  /** `mw![m1, ..., mn]`: each middleware boxed, in argument order, in a boxed `Vec`. */
  function Mw(items: seq<Middleware>): (m: Middleware)
    requires |items| >= 1
    ensures m.Boxed? && m.inner.Stack? && |m.inner.items| == |items|
    ensures forall i :: 0 <= i < |items| ==> m.inner.items[i] == Boxed(items[i])
  {
    Boxed(Stack(seq(|items|, i requires 0 <= i < |items| => Boxed(items[i]))))
  }

  /** Boxing every item changes nothing about the chain. */
  lemma {:induction false} BoxedChain<T, E>(run: (MiddlewareId, T) -> Result<T, E>, items: seq<Middleware>, boxed: seq<Middleware>, x: T)
    requires |boxed| == |items|
    requires forall i :: 0 <= i < |items| ==> boxed[i] == Boxed(items[i])
    ensures Chain(run, boxed, x) == Chain(run, items, x)
    decreases |items|
  {
    if items != [] {
      match Apply(run, items[0], x)
      case Err(e) =>
      case Ok(v) => BoxedChain(run, items[1..], boxed[1..], v);
    }
  }

  /** `mw!` runs its arguments in order with the short-circuit rule. */
  lemma MwRunsInOrder<T, E>(run: (MiddlewareId, T) -> Result<T, E>, items: seq<Middleware>, x: T)
    requires |items| >= 1
    ensures Apply(run, Mw(items), x) == Chain(run, items, x)
  {
    StackIsChain(run, Mw(items).inner.items, x);
    BoxedChain(run, items, Mw(items).inner.items, x);
  }

  /** The interpreter used to show that order matters: middleware `id` appends `id`. */
  function Record(id: MiddlewareId, trail: seq<MiddlewareId>): Result<seq<MiddlewareId>, ()> {
    Ok(trail + [id])
  }

  /** Order is significant: `mw![m1, m2]` and `mw![m2, m1]` can differ. */
  lemma OrderMatters()
    ensures Apply(Record, Mw([Func(1), Func(2)]), []) == Ok([1, 2])
    ensures Apply(Record, Mw([Func(2), Func(1)]), []) == Ok([2, 1])
  {
    MwRunsInOrder(Record, [Func(1), Func(2)], []);
    MwRunsInOrder(Record, [Func(2), Func(1)], []);
    OrderedPair(1, 2);
    OrderedPair(2, 1);
  }

  /** Two recording middlewares leave their ids in the order they ran. */
  lemma OrderedPair(i: MiddlewareId, j: MiddlewareId)
    ensures Chain(Record, [Func(i), Func(j)], []) == Ok([i, j])
  {
    var items := [Func(i), Func(j)];
    assert items[1..] == [Func(j)];
    assert [Func(j)][1..] == [];
    assert Record(i, []) == Ok([i]) by { assert [] + [i] == [i]; }
    assert Apply(Record, Func(i), []) == Ok([i]);
    assert Record(j, [i]) == Ok([i, j]) by { assert [i] + [j] == [i, j]; }
    assert Apply(Record, Func(j), [i]) == Ok([i, j]);
    assert Chain(Record, [Func(j)], [i]) == Chain(Record, [], [i, j]);
  }
}
