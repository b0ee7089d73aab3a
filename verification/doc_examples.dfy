/** The library's documentation examples, replayed on the model. The operand
    there is `vec.contains(&x)`, here `x in vec`; the closures that mutate the
    captured vector are actions on a caller state that is that vector. */
module DocExamples {
  import W = Wrappers
  import opened Effects
  import opened BoolExt

  const Vec: seq<int> := [1, 2, 3]

  /** `vec.iter_mut().for_each(|el| *el = -*el)` */
  function NegateAll(v: seq<int>): (r: seq<int>)
    ensures |r| == |v|
    ensures forall i :: 0 <= i < |v| ==> r[i] == -v[i]
  {
    if |v| == 0 then [] else [-v[0]] + NegateAll(v[1..])
  }

  function Negate(): Thunk<seq<int>, ()>
  {
    v => (NegateAll(v), ())
  }

  /** `vec.push(4)` */
  function Push4(): Thunk<seq<int>, ()>
  {
    v => (v + [4], ())
  }

  /** An effectful closure standing for `expensive_computation()`: it pushes
      `4` and yields `v`, so a call that runs it leaves a visible trace */
  function Push4Then<T>(v: T): Thunk<seq<int>, T>
  {
    u => (u + [4], v)
  }

  /** A fallible closure that always succeeds, like `Ok::<_, SomeError>(())` */
  function NegateOk(): Thunk<seq<int>, W.Result<(), ()>>
  {
    v => (NegateAll(v), W.Ok(()))
  }

  function Push4Ok(): Thunk<seq<int>, W.Result<(), ()>>
  {
    v => (v + [4], W.Ok(()))
  }

  lemma OptionAndResultExamples()
    ensures 2 in Vec && 4 !in Vec
    ensures ToOption(2 in Vec) == W.Some(()) && ToOption(4 in Vec) == W.None
    ensures Some(2 in Vec, "Foo") == W.Some("Foo") && Some(4 in Vec, "Foo") == W.None
    ensures ToResult(2 in Vec) == W.Ok(()) && ToResult(4 in Vec) == W.Err(())
    ensures Ok(2 in Vec, "Foo") == W.Ok("Foo") && Ok(4 in Vec, "Foo") == W.Err(())
    ensures Err(4 in Vec, "Foo") == W.Err("Foo") && Err(2 in Vec, "Foo") == W.Ok(())
    ensures OkOrErr(2 in Vec, "Error", "Foo") == W.Ok("Foo")
    ensures OkOrErr(4 in Vec, "Error", "Foo") == W.Err("Error")
  {
  }

  lemma LazyExamples(s: seq<int>)
    ensures SomeWith(2 in Vec, Pure("Foo"), s).out == W.Some("Foo")
    ensures SomeWith(4 in Vec, Push4Then("Foo"), s) == Eval(s, W.None)
    ensures OkWith(2 in Vec, Pure("Foo"), s).out == W.Ok("Foo")
    ensures OkWith(4 in Vec, Push4Then("Foo"), s) == Eval(s, W.Err(()))
    ensures OkOrErrWith(2 in Vec, Pure("Bar"), Pure("Foo"), s).out == W.Ok("Foo")
    ensures OkOrErrWith(2 in Vec, Push4Then("Bar"), Pure("Foo"), s) == Eval(s, W.Ok("Foo"))
    ensures OkOrErrWith(4 in Vec, Pure("Bar"), Push4Then("Foo"), s) == Eval(s, W.Err("Bar"))
    ensures OkOrErrWith(4 in Vec, Pure("Bar"), Pure("Foo"), s).out == W.Err("Bar")
    ensures ErrWith(4 in Vec, Pure("Foo"), s).out == W.Err("Foo")
    ensures ErrWith(2 in Vec, Push4Then("Foo"), s) == Eval(s, W.Ok(()))
  {
  }

  lemma MapExamples(s: seq<int>)
    ensures Map(2 in Vec, "no", "yes") == "yes" && Map(4 in Vec, "no", "yes") == "no"
    ensures MapOr(2 in Vec, 0, Pure(42), s).out == 42
    ensures MapOr(4 in Vec, W.None, Pure(W.Some(42)), s).out == W.None
    ensures MapOrDefault(2 in Vec, 0, Pure(42), s).out == 42
    ensures MapOrDefault(4 in Vec, W.None, Pure(W.Some(42)), s).out == W.None
    ensures MapOrElse(2 in Vec, Pure("Out"), Pure("In"), s).out == "In"
    ensures MapOrElse(4 in Vec, Pure("Out"), Pure("In"), s).out == "Out"
  {
  }

  lemma SideEffectExamples()
    ensures AndDo(2 in Vec, Negate(), Vec).state == [-1, -2, -3]
    ensures OrDo(4 in Vec, Push4(), Vec).state == [1, 2, 3, 4]
    ensures AndTryDo(2 in Vec, NegateOk(), Vec).state == [-1, -2, -3]
    ensures OrTryDo(4 in Vec, Push4Ok(), Vec).state == [1, 2, 3, 4]
  {
    assert NegateAll(Vec) == [-1, -2, -3];
  }

  lemma AssertionExamples()
    ensures Expect(2 in Vec, "Test expected `true`, but found `false`") == Returned
    ensures Expect(4 in Vec, "Test expected `true`, but found `false`").Panicked?
    ensures ExpectFalse(42 in Vec, "Test expected `false`, but found `true`") == Returned
    ensures ExpectFalse(42 in Vec + [42], "Test expected `false`, but found `true`").Panicked?
  {
    assert (Vec + [42])[3] == 42;
  }
}
