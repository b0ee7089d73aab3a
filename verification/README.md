# bool_ext in Dafny

A model of `BoolExt`, the Rust crate `bool_ext`'s set of functional
combinators on `bool`. Each combinator turns the operand `b` into an
`Option`, a `Result`, a selected value, a side effect, or a panic, and each is
a two-way case split on `b`. The model follows the `impl BoolExt for bool` in
`src/lib.rs`.

Layout:

- `wrappers.dfy`: module `Wrappers`. Rust's `Option` and `Result`, and `Result::map`.
- `effects.dfy`: module `Effects`. A closure `FnOnce() -> T` is a `Thunk<S, T> = S -> (S, T)` over an abstract caller state `S`. `Eval(state, out)` is the caller state after a call together with the call's return value. `Pure(v)` is the closure `|| v`.
- `bool_ext.dfy`: module `BoolExt`. One function per trait method. Eager arguments are values and lazy arguments are thunks. The argument order is the code's, with the false-branch argument first.
- `laws.dfy`: module `BoolExtLaws`. It shows that:
  - every eager adapter is the fold `map(f, t)`;
  - lazy and eager partners agree when the closures are pure;
  - a lazy adapter is its eager partner applied to the value of the selected closure;
  - the closure of the untaken branch is never observed;
  - `or_do` and `or_try_do`, written through `and_do` and `and_try_do` on the negated operand, hand back the original operand;
  - `expect_false` is `expect` on the negated operand.
- `counting.dfy`: module `Counting`. It wraps the caller state with one call counter per closure. This proves that each lazy adapter runs its closure exactly once when that closure's branch is selected, and never otherwise.
- `chaining.dfy`: module `Chaining`. The side-effect adapters return their operand so that calls can be chained. A chain of `and_do`/`or_do` runs exactly the actions its operand selects, in order. A chain of `and_try_do(..)?`/`or_try_do(..)?` does the same, up to the first failing action, whose error it returns.
- `doc_examples.dfy`: module `DocExamples`. The documentation examples of the trait, with `vec.contains(&x)` written `x in vec`.

Conventions of the code that the model keeps:

- `err(e)` and `err_with(th)` both map `true` to `Ok(())` and `false` to `Err(..)` (src/lib.rs:672-685).
- The false-branch argument comes first in `ok_or_err(err, ok)`, `map(f, t)`, `map_or(f, t)` and `map_or_else(f, t)` (src/lib.rs:688-734).
- `map(f, t)` takes two ready values (src/lib.rs:708-713). Selecting between two closures is `map_or_else` (src/lib.rs:729-734).

## Model

| member | source | states |
|---|---|---|
| BoolExt.ToOption | src/lib.rs:624-629 | present exactly when the operand is true |
| BoolExt.Some | src/lib.rs:632-637 | `Some(v)` exactly when true, carrying the given value; `None` when false |
| BoolExt.SomeWith | src/lib.rs:640-645 | `Some` exactly when true, carrying the closure's value and the state it leaves; when false the state is untouched |
| BoolExt.ToResult | src/lib.rs:648-653 | `Ok(())` exactly when true, `Err(())` otherwise |
| BoolExt.Ok | src/lib.rs:656-661 | `Ok(v)` exactly when true with the given value, `Err(())` otherwise |
| BoolExt.OkWith | src/lib.rs:664-669 | `Ok` exactly when true, with the closure's value and effect; no effect when false |
| BoolExt.Err | src/lib.rs:672-677 | `Ok(())` when true, `Err(e)` with the given error when false |
| BoolExt.ErrWith | src/lib.rs:680-685 | same polarity as `err`; the error closure's value and effect only when false; no effect when true |
| BoolExt.OkOrErr | src/lib.rs:688-693 | `Ok(ok)` when true, `Err(err)` when false |
| BoolExt.OkOrErrWith | src/lib.rs:696-705 | `Ok` from the ok closure when true, `Err` from the err closure when false, with that closure's effect alone |
| BoolExt.Map | src/lib.rs:708-713 | the true value when true, the false value when false |
| BoolExt.MapOr | src/lib.rs:716-721 | the closure's value and effect when true; the ready false value and no effect when false |
| BoolExt.MapOrDefault | src/lib.rs:724-726 | the closure's value and effect when true; the default value and no effect when false |
| BoolExt.MapOrElse | src/lib.rs:729-734 | the true closure's value and effect when true, the false closure's when false |
| BoolExt.AndDo | src/lib.rs:737-743 | returns the operand; the action's effect when true, none when false |
| BoolExt.OrDo | src/lib.rs:746-748 | returns the operand itself (not its negation); the action's effect when false, none when true |
| BoolExt.AndTryDo | src/lib.rs:751-759 | an error exactly when the operand is true and the action fails, carrying the action's error; otherwise `Ok(b)`; the action's effect exactly when true |
| BoolExt.OrTryDo | src/lib.rs:762-764 | an error exactly when the operand is false and the action fails, carrying its error; otherwise `Ok(b)` with the original operand; effect exactly when false |
| BoolExt.Expect | src/lib.rs:767-773 | returns exactly when true; otherwise panics carrying the message |
| BoolExt.ExpectFalse | src/lib.rs:776-778 | panics exactly when true, carrying the message; returns when false |
| BoolExtLaws.OptionAdaptersAreFolds | src/lib.rs:624-637 | `to_option` and `some` are `map` over `None`/`Some`; `to_option` is `some(())` |
| BoolExtLaws.ResultAdaptersAreFolds | src/lib.rs:648-693 | `to_result`, `ok`, `err`, `ok_or_err` are `map` over `Err`/`Ok`; `ok`, `err` are `ok_or_err` with a unit side; `to_result` is `ok(())` and `err(())` |
| BoolExtLaws.OptionAndResultAgree | src/lib.rs:632-661 | `some` and `ok` select the same branch and carry the same value |
| BoolExtLaws.LazyAgreesWithEagerOnPureThunks | src/lib.rs:632-734 | with pure closures each `_with`/`_or`/`_or_else` variant equals its eager partner and leaves the state unchanged |
| BoolExtLaws.MapOrDefaultIsMapOr | src/lib.rs:724-726 | `map_or_default(th)` is `map_or(T::default(), th)` |
| BoolExtLaws.LazyIsEagerOnSelectedBranch | src/lib.rs:640-705 | a lazy adapter equals its eager partner applied to the selected closure's value, with that closure's effect |
| BoolExtLaws.UntakenThunkIsIgnored | src/lib.rs:640-734 | replacing the closure of the untaken branch changes neither the result nor the state |
| BoolExtLaws.UntakenActionIsIgnored | src/lib.rs:737-764 | an action whose branch is not selected changes neither the result nor the state |
| BoolExtLaws.OrDoIsAndDoOnNegation | src/lib.rs:746-748 | `or_do` has the effect of `and_do` on `!b` and returns the original operand |
| BoolExtLaws.OrTryDoIsAndTryDoOnNegation | src/lib.rs:762-764 | `or_try_do` has the effect and error of `and_try_do` on `!b`, and succeeds with `Ok(b)` |
| BoolExtLaws.ExpectFalseIsExpectOnNegation | src/lib.rs:776-778 | `expect_false` is `expect` on `!b`; the four operand/assertion combinations return or panic with the message |
| BoolExtLaws.AndDoThenOrDoIsIfThenElse | src/lib.rs:737-748 | `b.and_do(t).or_do(f)` runs exactly one of `t`, `f` and yields `b` |
| Counting.OptionThunkRunsOnceIffTrue | src/lib.rs:640-645 | `some_with` calls its closure once when true, never when false |
| Counting.OkThunkRunsOnceIffTrue | src/lib.rs:664-669 | `ok_with` calls its closure once when true, never when false |
| Counting.ErrThunkRunsOnceIffFalse | src/lib.rs:680-685 | `err_with` calls its closure once when false, never when true |
| Counting.OkOrErrWithRunsExactlyOne | src/lib.rs:696-705 | `ok_or_err_with` calls the ok closure once iff true and the err closure once iff false |
| Counting.MapOrThunkRunsOnceIffTrue | src/lib.rs:716-726 | `map_or` and `map_or_default` call their closure once iff true |
| Counting.MapOrElseRunsExactlyOne | src/lib.rs:729-734 | `map_or_else` calls `t` once iff true and `f` once iff false |
| Counting.ActionsRunOnceIffSelected | src/lib.rs:737-764 | `and_do`/`and_try_do` run their action once iff true; `or_do`/`or_try_do` once iff false |
| Chaining.DoChainRunsSelected | src/lib.rs:737-748 | a chain of `and_do`/`or_do` on one operand runs exactly the actions of matching polarity, in order, once each, and yields the operand |
| Chaining.TryChainRunsSelectedUntilFailure | src/lib.rs:751-764 | a chain of `and_try_do(..)?`/`or_try_do(..)?` runs the selected actions in order up to the first failure, returning its error, or `Ok(b)` |
| DocExamples.OptionAndResultExamples | src/lib.rs:38-316 | the documented results of `to_option`, `some`, `to_result`, `ok`, `err`, `ok_or_err` on `[1, 2, 3]` |
| DocExamples.LazyExamples | src/lib.rs:84-371 | the documented results of `some_with`, `ok_with`, `err_with`, `ok_or_err_with`; where the example elides the computation, an effectful closure leaves the state untouched |
| DocExamples.MapExamples | src/lib.rs:379-497 | the documented results of `map`, `map_or`, `map_or_default`, `map_or_else` |
| DocExamples.SideEffectExamples | src/lib.rs:499-557 | `and_do`/`and_try_do` negate the vector, `or_do`/`or_try_do` push `4` |
| DocExamples.AssertionExamples | src/lib.rs:559-617 | `expect` and `expect_false` return or panic as documented |

## Left out

- `src/error.rs` (an error enum over a message constant from a `consts` module) is not part of this model. It is unrelated to the combinators, and the `consts` module is not part of this model either.
- The crate-level lint and `no_std` attributes (src/lib.rs:1-28) have no behaviour.
- Rust ownership and `FnOnce` move semantics are not modelled. A closure is a pure state transformer. The model shows that it is applied at most once, which is what `FnOnce` enforces at compile time.
- A panic raised inside a caller's closure, which propagates unchanged through every combinator, is not modelled. Closures are total.
- `panic!` in `expect` is the value `Panicked(msg)`, not a real abort. The `{}` formatting of the message is the identity on the message.
- BoolExt.MapOrDefault: `T::default()` comes from the caller's `Default` implementation. It is passed in as the value `default`.
- BoolExt.AndTryDo: the `?` operator converts the error with `From<E> for E`, which is the identity. The error is passed through unchanged.
- `vec.contains(&x)` in the documentation examples only produces the operand. It is written `x in vec`.
