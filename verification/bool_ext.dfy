/** The `BoolExt` combinators implemented for `bool`.

    Each Rust method `b.op(args)` is a function `Op(b, args)`. Arguments the
    caller passes as values are evaluated before the call (eager); closures
    (`FnOnce`) are `Thunk`s over the caller state `s` and are run, at most
    once, inside the branch that needs them (lazy). As in the code, the
    false-branch argument comes first wherever a method takes two:
    `ok_or_err(err, ok)`, `map(f, t)`, `map_or(f, t)`, `map_or_else(f, t)`. */
module BoolExt {
  import W = Wrappers
  import opened Effects

  // ---------------------------------------------------------------------
  // bool => Option<T>

  /** `b.to_option()`: `true` => `Some(())`, `false` => `None` */
  function ToOption(b: bool): (r: W.Option<()>)
    ensures r.Some? <==> b
  {
    if b then W.Some(()) else W.None
  }

  /** `b.some(v)`: `true` => `Some(v)`, `false` => `None` */
  function Some<T>(b: bool, some: T): (r: W.Option<T>)
    ensures r.Some? <==> b
    ensures r.Some? ==> r.value == some
  {
    if b then W.Some(some) else W.None
  }

  /** `b.some_with(th)`: like `some`, but the value is computed by `th`, which
      runs only when `b` holds */
  function SomeWith<S, T>(b: bool, some: Thunk<S, T>, s: S): (e: Eval<S, W.Option<T>>)
    ensures e.out.Some? <==> b
    ensures b ==> (e.state, e.out.value) == some(s)
    ensures !b ==> e.state == s
  {
    if b then
      var (s', v) := some(s);
      Eval(s', W.Some(v))
    else
      Eval(s, W.None)
  }

  // ---------------------------------------------------------------------
  // bool => Result<T, E>

  /** `b.to_result()`: `true` => `Ok(())`, `false` => `Err(())` */
  function ToResult(b: bool): (r: W.Result<(), ()>)
    ensures r.Ok? <==> b
  {
    if b then W.Ok(()) else W.Err(())
  }

  /** `b.ok(v)`: `true` => `Ok(v)`, `false` => `Err(())` */
  function Ok<T>(b: bool, ok: T): (r: W.Result<T, ()>)
    ensures r.Ok? <==> b
    ensures r.Ok? ==> r.value == ok
  {
    if b then W.Ok(ok) else W.Err(())
  }

  /** `b.ok_with(th)`: like `ok`, with the success value computed by `th`
      only when `b` holds */
  function OkWith<S, T>(b: bool, ok: Thunk<S, T>, s: S): (e: Eval<S, W.Result<T, ()>>)
    ensures e.out.Ok? <==> b
    ensures b ==> (e.state, e.out.value) == ok(s)
    ensures !b ==> e.state == s
  {
    if b then
      var (s', v) := ok(s);
      Eval(s', W.Ok(v))
    else
      Eval(s, W.Err(()))
  }

  /** `b.err(e)`: `true` => `Ok(())`, `false` => `Err(e)` */
  function Err<E>(b: bool, err: E): (r: W.Result<(), E>)
    ensures r.Ok? <==> b
    ensures r.Err? ==> r.error == err
  {
    if b then W.Ok(()) else W.Err(err)
  }

  /** `b.err_with(th)`: the same polarity as `err`, with the error computed by
      `th` only when `b` does not hold */
  function ErrWith<S, E>(b: bool, err: Thunk<S, E>, s: S): (e: Eval<S, W.Result<(), E>>)
    ensures e.out.Ok? <==> b
    ensures !b ==> (e.state, e.out.error) == err(s)
    ensures b ==> e.state == s
  {
    if b then
      Eval(s, W.Ok(()))
    else
      var (s', x) := err(s);
      Eval(s', W.Err(x))
  }

  /** `b.ok_or_err(err, ok)`: `true` => `Ok(ok)`, `false` => `Err(err)` */
  function OkOrErr<T, E>(b: bool, err: E, ok: T): (r: W.Result<T, E>)
    ensures r.Ok? <==> b
    ensures r.Ok? ==> r.value == ok
    ensures r.Err? ==> r.error == err
  {
    if b then W.Ok(ok) else W.Err(err)
  }

  /** `b.ok_or_err_with(err, ok)`: exactly one of the two closures runs, the
      one for the branch `b` selects */
  function OkOrErrWith<S, T, E>(b: bool, err: Thunk<S, E>, ok: Thunk<S, T>, s: S): (e: Eval<S, W.Result<T, E>>)
    ensures e.out.Ok? <==> b
    ensures b ==> (e.state, e.out.value) == ok(s)
    ensures !b ==> (e.state, e.out.error) == err(s)
  {
    if b then
      var (s', v) := ok(s);
      Eval(s', W.Ok(v))
    else
      var (s', x) := err(s);
      Eval(s', W.Err(x))
  }

  // ---------------------------------------------------------------------
  // bool => T

  /** `b.map(f, t)`: selects `t` when `b` holds and `f` otherwise; the fold
      over a boolean */
  function Map<T>(b: bool, f: T, t: T): (r: T)
    ensures b ==> r == t
    ensures !b ==> r == f
  {
    if b then t else f
  }

  /** `b.map_or(f, th)`: `th()` when `b` holds, the ready value `f` otherwise */
  function MapOr<S, T>(b: bool, f: T, t: Thunk<S, T>, s: S): (e: Eval<S, T>)
    ensures b ==> (e.state, e.out) == t(s)
    ensures !b ==> e.state == s && e.out == f
  {
    if b then
      var (s', v) := t(s);
      Eval(s', v)
    else
      Eval(s, f)
  }

  /** `b.map_or_default(th)`: `map_or` with `T::default()` as the false
      value. The `Default` implementation of `T` is outside the library; the
      value it yields is passed in as `default`. */
  function MapOrDefault<S, T>(b: bool, default: T, t: Thunk<S, T>, s: S): (e: Eval<S, T>)
    ensures b ==> (e.state, e.out) == t(s)
    ensures !b ==> e.state == s && e.out == default
  {
    MapOr(b, default, t, s)
  }

  /** `b.map_or_else(f, t)`: runs `t` when `b` holds and `f` otherwise, never
      both */
  function MapOrElse<S, T>(b: bool, f: Thunk<S, T>, t: Thunk<S, T>, s: S): (e: Eval<S, T>)
    ensures b ==> (e.state, e.out) == t(s)
    ensures !b ==> (e.state, e.out) == f(s)
  {
    if b then
      var (s', v) := t(s);
      Eval(s', v)
    else
      var (s', v) := f(s);
      Eval(s', v)
  }

  // ---------------------------------------------------------------------
  // Side effects

  /** `b.and_do(t)`: runs the action `t` when `b` holds; hands `b` back */
  function AndDo<S>(b: bool, t: Thunk<S, ()>, s: S): (e: Eval<S, bool>)
    ensures e.out == b
    ensures b ==> e.state == t(s).0
    ensures !b ==> e.state == s
  {
    var s' := if b then t(s).0 else s;
    Eval(s', b)
  }

  /** `b.or_do(f)`, written in the code as `!(!b).and_do(f)`: runs `f` when
      `b` does not hold, and hands back `b` itself, not its negation */
  function OrDo<S>(b: bool, f: Thunk<S, ()>, s: S): (e: Eval<S, bool>)
    ensures e.out == b
    ensures !b ==> e.state == f(s).0
    ensures b ==> e.state == s
  {
    var e := AndDo(!b, f, s);
    Eval(e.state, !e.out)
  }

  /** `b.and_try_do(t)`: runs the fallible action `t` when `b` holds; its
      error is propagated by `?`, and otherwise `Ok(b)` is returned */
  function AndTryDo<S, E>(b: bool, t: Thunk<S, W.Result<(), E>>, s: S): (e: Eval<S, W.Result<bool, E>>)
    ensures e.out.Err? <==> b && t(s).1.Err?
    ensures e.out.Err? ==> e.out.error == t(s).1.error
    ensures e.out.Ok? ==> e.out.value == b
    ensures b ==> e.state == t(s).0
    ensures !b ==> e.state == s
  {
    if b then
      var (s', r) := t(s);
      match r
      case Err(x) => Eval(s', W.Err(x))
      case Ok(_) => Eval(s', W.Ok(b))
    else
      Eval(s, W.Ok(b))
  }

  /** `b.or_try_do(f)`, written in the code as
      `(!b).and_try_do(f).map(|_| b)`: runs `f` when `b` does not hold,
      propagates its error, and on success hands back `Ok(b)` */
  function OrTryDo<S, E>(b: bool, f: Thunk<S, W.Result<(), E>>, s: S): (e: Eval<S, W.Result<bool, E>>)
    ensures e.out.Err? <==> !b && f(s).1.Err?
    ensures e.out.Err? ==> e.out.error == f(s).1.error
    ensures e.out.Ok? ==> e.out.value == b
    ensures !b ==> e.state == f(s).0
    ensures b ==> e.state == s
  {
    var e := AndTryDo(!b, f, s);
    Eval(e.state, e.out.Map(_ => b))
  }

  // ---------------------------------------------------------------------
  // Assertions

  /** How a call that may `panic!` ends: it returns, or it panics with a
      message */
  datatype Exit = Returned | Panicked(message: string)

  /** `b.expect(msg)`: returns when `b` holds, panics with `msg` otherwise */
  function Expect(b: bool, msg: string): (x: Exit)
    ensures x.Returned? <==> b
    ensures x.Panicked? ==> x.message == msg
  {
    if b then Returned else Panicked(msg)
  }

  /** `b.expect_false(msg)`, written in the code as `b.not().expect(msg)`:
      panics with `msg` exactly when `b` holds */
  function ExpectFalse(b: bool, msg: string): (x: Exit)
    ensures x.Panicked? <==> b
    ensures x.Panicked? ==> x.message == msg
  {
    Expect(!b, msg)
  }
}
