/** Laws relating the combinators to one another: every eager adapter is the
    boolean fold `map` at fixed branch values; every lazy adapter agrees with
    its eager partner when its closures are pure, and in general behaves as
    "run the selected closure, then apply the eager adapter to its value";
    a closure for the branch not taken can neither change the result nor the
    caller's state; `or_do` and `or_try_do`, written through their partners on
    the negated operand, hand back the original operand; and `expect_false`
    is `expect` on the negated operand. */
module BoolExtLaws {
  import W = Wrappers
  import opened Effects
  import opened BoolExt

  // ---------------------------------------------------------------------
  // The eager adapters are instances of the fold `map(f, t)`

  lemma OptionAdaptersAreFolds<T>(b: bool, v: T)
    ensures ToOption(b) == Map(b, W.None, W.Some(()))
    ensures Some(b, v) == Map(b, W.None, W.Some(v))
    ensures ToOption(b) == Some(b, ())
  {
  }

  lemma ResultAdaptersAreFolds<T, E>(b: bool, v: T, x: E)
    ensures ToResult(b) == Map(b, W.Err(()), W.Ok(()))
    ensures Ok(b, v) == Map(b, W.Err(()), W.Ok(v))
    ensures Err(b, x) == Map(b, W.Err(x), W.Ok(()))
    ensures OkOrErr(b, x, v) == Map(b, W.Err(x), W.Ok(v))
    ensures Ok(b, v) == OkOrErr(b, (), v)
    ensures Err(b, x) == OkOrErr(b, x, ())
    ensures ToResult(b) == Ok(b, ()) == Err(b, ())
  {
  }

  /** The Option and Result adapters agree on which branch is taken */
  lemma OptionAndResultAgree<T>(b: bool, v: T)
    ensures Some(b, v).Some? <==> Ok(b, v).Ok?
    ensures ToOption(b).Some? <==> ToResult(b).Ok?
    ensures Some(b, v).Some? ==> Some(b, v).value == Ok(b, v).value
  {
  }

  // ---------------------------------------------------------------------
  // Lazy and eager partners agree on pure closures

  lemma LazyAgreesWithEagerOnPureThunks<S, T, E>(b: bool, s: S, v: T, f: T, x: E)
    ensures SomeWith(b, Pure(v), s) == Eval(s, Some(b, v))
    ensures OkWith(b, Pure(v), s) == Eval(s, Ok(b, v))
    ensures ErrWith(b, Pure(x), s) == Eval(s, Err(b, x))
    ensures OkOrErrWith(b, Pure(x), Pure(v), s) == Eval(s, OkOrErr(b, x, v))
    ensures MapOr(b, f, Pure(v), s) == Eval(s, Map(b, f, v))
    ensures MapOrElse(b, Pure(f), Pure(v), s) == Eval(s, Map(b, f, v))
    ensures MapOrElse(b, Pure(f), Pure(v), s) == MapOr(b, f, Pure(v), s)
  {
  }

  /** `map_or_default(th)` is `map_or(T::default(), th)` */
  lemma MapOrDefaultIsMapOr<S, T>(b: bool, default: T, t: Thunk<S, T>, s: S)
    ensures MapOrDefault(b, default, t, s) == MapOr(b, default, t, s)
  {
  }

  /** With effects, a lazy adapter is its eager partner applied to the value of
      the closure for the selected branch, evaluated in that branch only */
  lemma LazyIsEagerOnSelectedBranch<S, T, E>(b: bool, s: S, ok: Thunk<S, T>, err: Thunk<S, E>, f: T)
    ensures b ==> SomeWith(b, ok, s) == Eval(ok(s).0, Some(b, ok(s).1))
    ensures !b ==> SomeWith(b, ok, s) == Eval(s, Some(b, f))
    ensures b ==> OkWith(b, ok, s) == Eval(ok(s).0, Ok(b, ok(s).1))
    ensures !b ==> OkWith(b, ok, s) == Eval(s, Ok(b, f))
    ensures !b ==> ErrWith(b, err, s) == Eval(err(s).0, Err(b, err(s).1))
    ensures b ==> ErrWith(b, err, s) == Eval(s, W.Ok(()))
    ensures b ==> OkOrErrWith(b, err, ok, s) == Eval(ok(s).0, W.Ok(ok(s).1))
    ensures !b ==> OkOrErrWith(b, err, ok, s) == Eval(err(s).0, W.Err(err(s).1))
  {
  }

  // ---------------------------------------------------------------------
  // The closure of the branch not taken is never observed

  lemma UntakenThunkIsIgnored<S, T, E>(s: S, t1: Thunk<S, T>, t2: Thunk<S, T>, e1: Thunk<S, E>, e2: Thunk<S, E>, f: T)
    ensures SomeWith(false, t1, s) == SomeWith(false, t2, s) == Eval(s, W.None)
    ensures OkWith(false, t1, s) == OkWith(false, t2, s) == Eval(s, W.Err(()))
    ensures ErrWith(true, e1, s) == ErrWith(true, e2, s) == Eval(s, W.Ok(()))
    ensures OkOrErrWith(true, e1, t1, s) == OkOrErrWith(true, e2, t1, s)
    ensures OkOrErrWith(false, e1, t1, s) == OkOrErrWith(false, e1, t2, s)
    ensures MapOr(false, f, t1, s) == MapOr(false, f, t2, s) == Eval(s, f)
    ensures MapOrElse(true, t1, t2, s) == MapOrElse(true, t2, t2, s)
    ensures MapOrElse(false, t1, t2, s) == MapOrElse(false, t1, t1, s)
  {
  }

  lemma UntakenActionIsIgnored<S, E>(s: S, a1: Thunk<S, ()>, a2: Thunk<S, ()>, r1: Thunk<S, W.Result<(), E>>, r2: Thunk<S, W.Result<(), E>>)
    ensures AndDo(false, a1, s) == AndDo(false, a2, s) == Eval(s, false)
    ensures OrDo(true, a1, s) == OrDo(true, a2, s) == Eval(s, true)
    ensures AndTryDo(false, r1, s) == AndTryDo(false, r2, s) == Eval(s, W.Ok(false))
    ensures OrTryDo(true, r1, s) == OrTryDo(true, r2, s) == Eval(s, W.Ok(true))
  {
  }

  // ---------------------------------------------------------------------
  // Complements written through negation

  /** `or_do` has the effect of `and_do` on `!b` but returns `b` */
  lemma OrDoIsAndDoOnNegation<S>(b: bool, f: Thunk<S, ()>, s: S)
    ensures OrDo(b, f, s).state == AndDo(!b, f, s).state
    ensures OrDo(b, f, s).out == b == !AndDo(!b, f, s).out
  {
  }

  /** `or_try_do` has the effect and the error of `and_try_do` on `!b`, but on
      success returns `Ok(b)` */
  lemma OrTryDoIsAndTryDoOnNegation<S, E>(b: bool, f: Thunk<S, W.Result<(), E>>, s: S)
    ensures OrTryDo(b, f, s).state == AndTryDo(!b, f, s).state
    ensures OrTryDo(b, f, s).out.Err? <==> AndTryDo(!b, f, s).out.Err?
    ensures AndTryDo(!b, f, s).out.Err? ==> OrTryDo(b, f, s).out == AndTryDo(!b, f, s).out
    ensures AndTryDo(!b, f, s).out.Ok? ==> OrTryDo(b, f, s).out == W.Ok(b)
  {
  }

  /** `expect_false(msg)` is `expect(msg)` on the negated operand */
  lemma ExpectFalseIsExpectOnNegation(b: bool, msg: string)
    ensures ExpectFalse(b, msg) == Expect(!b, msg)
    ensures Expect(true, msg) == Returned && ExpectFalse(false, msg) == Returned
    ensures Expect(false, msg) == Panicked(msg) && ExpectFalse(true, msg) == Panicked(msg)
  {
  }

  /** An `and_do` followed by an `or_do` on the value it hands back is an
      if-then-else: exactly one of the two actions runs */
  lemma AndDoThenOrDoIsIfThenElse<S>(b: bool, t: Thunk<S, ()>, f: Thunk<S, ()>, s: S)
    ensures var e := AndDo(b, t, s); OrDo(e.out, f, e.state) == Eval(if b then t(s).0 else f(s).0, b)
  {
  }
}
