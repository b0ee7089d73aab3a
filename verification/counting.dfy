/** Counting closures. The caller state is wrapped with one call counter per
    closure argument: `trueCalls` for the closure of the `true` branch (`some`,
    `ok`, `t`) and `falseCalls` for the closure of the `false` branch (`err`,
    `f`). A closure wrapped by `CountTrue` or `CountFalse` bumps its counter
    every time it runs, so the counters after a call say exactly how often
    the combinator invoked each closure. */
module Counting {
  import W = Wrappers
  import opened Effects
  import opened BoolExt

  datatype Tally<S> = Tally(trueCalls: nat, falseCalls: nat, inner: S)

  function CountTrue<S, T>(th: Thunk<S, T>): Thunk<Tally<S>, T>
  {
    (c: Tally<S>) => var (s', v) := th(c.inner); (Tally(c.trueCalls + 1, c.falseCalls, s'), v)
  }

  function CountFalse<S, T>(th: Thunk<S, T>): Thunk<Tally<S>, T>
  {
    (c: Tally<S>) => var (s', v) := th(c.inner); (Tally(c.trueCalls, c.falseCalls + 1, s'), v)
  }

  /** The counters grew by `t` and `f` calls, respectively */
  predicate Ran<S>(before: Tally<S>, after: Tally<S>, t: nat, f: nat)
  {
    after.trueCalls == before.trueCalls + t && after.falseCalls == before.falseCalls + f
  }

  /** How often a closure runs whose branch is selected exactly when `b` */
  function CallsWhen(b: bool): nat
  {
    if b then 1 else 0
  }

  lemma OptionThunkRunsOnceIffTrue<S, T>(b: bool, some: Thunk<S, T>, c: Tally<S>)
    ensures Ran(c, SomeWith(b, CountTrue(some), c).state, CallsWhen(b), 0)
  {
  }

  lemma OkThunkRunsOnceIffTrue<S, T>(b: bool, ok: Thunk<S, T>, c: Tally<S>)
    ensures Ran(c, OkWith(b, CountTrue(ok), c).state, CallsWhen(b), 0)
  {
  }

  lemma ErrThunkRunsOnceIffFalse<S, E>(b: bool, err: Thunk<S, E>, c: Tally<S>)
    ensures Ran(c, ErrWith(b, CountFalse(err), c).state, 0, CallsWhen(!b))
  {
  }

  /** `ok_or_err_with` runs exactly one closure, once */
  lemma OkOrErrWithRunsExactlyOne<S, T, E>(b: bool, err: Thunk<S, E>, ok: Thunk<S, T>, c: Tally<S>)
    ensures Ran(c, OkOrErrWith(b, CountFalse(err), CountTrue(ok), c).state, CallsWhen(b), CallsWhen(!b))
  {
  }

  lemma MapOrThunkRunsOnceIffTrue<S, T>(b: bool, f: T, t: Thunk<S, T>, c: Tally<S>)
    ensures Ran(c, MapOr(b, f, CountTrue(t), c).state, CallsWhen(b), 0)
    ensures Ran(c, MapOrDefault(b, f, CountTrue(t), c).state, CallsWhen(b), 0)
  {
  }

  /** `map_or_else` runs exactly one closure, once */
  lemma MapOrElseRunsExactlyOne<S, T>(b: bool, f: Thunk<S, T>, t: Thunk<S, T>, c: Tally<S>)
    ensures Ran(c, MapOrElse(b, CountFalse(f), CountTrue(t), c).state, CallsWhen(b), CallsWhen(!b))
  {
  }

  lemma ActionsRunOnceIffSelected<S, E>(b: bool, a: Thunk<S, ()>, r: Thunk<S, W.Result<(), E>>, c: Tally<S>)
    ensures Ran(c, AndDo(b, CountTrue(a), c).state, CallsWhen(b), 0)
    ensures Ran(c, OrDo(b, CountFalse(a), c).state, 0, CallsWhen(!b))
    ensures Ran(c, AndTryDo(b, CountTrue(r), c).state, CallsWhen(b), 0)
    ensures Ran(c, OrTryDo(b, CountFalse(r), c).state, 0, CallsWhen(!b))
  {
  }
}
