/** Chains of side-effect calls on one operand.

    `and_do`, `or_do`, `and_try_do` and `or_try_do` hand back their operand
    rather than the unit value, so that calls can be chained:
    `b.and_do(a1).or_do(a2).and_do(a3)`, or with the fallible forms
    `b.and_try_do(a1)?.or_try_do(a2)?`. A chain of `and_do`/`or_do` links runs
    exactly the actions whose polarity matches `b`, in order, and yields `b`;
    a chain of fallible links does the same until the first selected action
    fails, and then stops with that action's error. */
module Chaining {
  import W = Wrappers
  import opened Effects
  import opened BoolExt

  /** One call in a chain: `.and_do(a)` / `.and_try_do(a)` or `.or_do(a)` /
      `.or_try_do(a)` */
  datatype Link<A> = AndLink(action: A) | OrLink(action: A)

  /** The actions of the links that run on operand `b`, in chain order */
  function Selected<A>(b: bool, links: seq<Link<A>>): (acts: seq<A>)
    ensures |acts| <= |links|
    ensures b ==> forall a :: a in acts ==> AndLink(a) in links
    ensures !b ==> forall a :: a in acts ==> OrLink(a) in links
    ensures forall i :: 0 <= i < |links| && links[i].AndLink? == b ==> links[i].action in acts
  {
    if |links| == 0 then []
    else
      (if links[0].AndLink? == b then [links[0].action] else []) + Selected(b, links[1..])
  }

  // ---------------------------------------------------------------------
  // Infallible chains

  /** `b.and_do(..).or_do(..)...`: each link receives the operand the previous
      one handed back */
  function DoChain<S>(b: bool, links: seq<Link<Thunk<S, ()>>>, s: S): Eval<S, bool>
    decreases |links|
  {
    if |links| == 0 then Eval(s, b)
    else
      var e := match links[0]
        case AndLink(a) => AndDo(b, a, s)
        case OrLink(a) => OrDo(b, a, s);
      DoChain(e.out, links[1..], e.state)
  }

  /** Runs every action once, in order */
  function RunAll<S>(acts: seq<Thunk<S, ()>>, s: S): S
    decreases |acts|
  {
    if |acts| == 0 then s else RunAll(acts[1..], acts[0](s).0)
  }

  /** A chain hands back its operand and runs precisely the actions its
      operand selects, each once, in order */
  lemma {:induction false} DoChainRunsSelected<S>(b: bool, links: seq<Link<Thunk<S, ()>>>, s: S)
    ensures DoChain(b, links, s) == Eval(RunAll(Selected(b, links), s), b)
    decreases |links|
  {
    if |links| > 0 {
      var head := if links[0].AndLink? == b then [links[0].action] else [];
      var s' := if links[0].AndLink? == b then links[0].action(s).0 else s;
      DoChainRunsSelected(b, links[1..], s');
      RunAllAppend(head, Selected(b, links[1..]), s);
    }
  }

  lemma {:induction false} RunAllAppend<S>(xs: seq<Thunk<S, ()>>, ys: seq<Thunk<S, ()>>, s: S)
    ensures RunAll(xs + ys, s) == RunAll(ys, RunAll(xs, s))
    decreases |xs|
  {
    if |xs| > 0 {
      assert (xs + ys)[1..] == xs[1..] + ys;
      RunAllAppend(xs[1..], ys, xs[0](s).0);
    } else {
      assert xs + ys == ys;
    }
  }

  // ---------------------------------------------------------------------
  // Fallible chains

  /** `b.and_try_do(..)?.or_try_do(..)?...`: the first error ends the chain */
  function TryChain<S, E>(b: bool, links: seq<Link<Thunk<S, W.Result<(), E>>>>, s: S): Eval<S, W.Result<bool, E>>
    decreases |links|
  {
    if |links| == 0 then Eval(s, W.Ok(b))
    else
      var e := match links[0]
        case AndLink(a) => AndTryDo(b, a, s)
        case OrLink(a) => OrTryDo(b, a, s);
      match e.out
      case Err(_) => e
      case Ok(b') => TryChain(b', links[1..], e.state)
  }

  /** Runs the actions in order until one fails, and reports that failure */
  function TryRunAll<S, E>(acts: seq<Thunk<S, W.Result<(), E>>>, s: S): Eval<S, W.Result<(), E>>
    decreases |acts|
  {
    if |acts| == 0 then Eval(s, W.Ok(()))
    else
      var (s', r) := acts[0](s);
      if r.Err? then Eval(s', r) else TryRunAll(acts[1..], s')
  }

  /** A fallible chain has the effect of running the selected actions until
      the first failure; it returns that failure, or `Ok(b)` if none failed */
  lemma {:induction false} TryChainRunsSelectedUntilFailure<S, E>(b: bool, links: seq<Link<Thunk<S, W.Result<(), E>>>>, s: S)
    ensures var e := TryChain(b, links, s);
            var r := TryRunAll(Selected(b, links), s);
            && e.state == r.state
            && (r.out.Ok? ==> e.out == W.Ok(b))
            && (r.out.Err? ==> e.out == W.Err(r.out.error))
    decreases |links|
  {
    if |links| > 0 {
      var rest := Selected(b, links[1..]);
      if links[0].AndLink? == b {
        var a := links[0].action;
        assert Selected(b, links) == [a] + rest;
        assert ([a] + rest)[1..] == rest;
        if a(s).1.Ok? {
          TryChainRunsSelectedUntilFailure(b, links[1..], a(s).0);
        }
      } else {
        assert Selected(b, links) == rest;
        TryChainRunsSelectedUntilFailure(b, links[1..], s);
      }
    }
  }
}
