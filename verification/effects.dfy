/** Caller-supplied deferred computations.

    A Rust closure `FnOnce() -> T` may read and change state the caller owns
    (the library's own examples negate or extend a captured vector). It is
    modelled as a transformer of an abstract caller state `S` that also yields
    a value. Running it once means applying it once to the current state; a
    computation that is never run leaves the state exactly as it was. */
module Effects {

  /** A zero-argument closure over caller state `S` producing a `T` */
  type Thunk<!S, T> = S -> (S, T)

  /** What evaluating a combinator leaves behind: the caller state after the
      call, and the value the combinator returns */
  datatype Eval<S, T> = Eval(state: S, out: T)

  /** The closure `|| v` for an already computed `v`: it touches no state */
  function Pure<S, T>(v: T): Thunk<S, T>
  {
    s => (s, v)
  }
}
