/**
 * The callables that a `Function` of the fixed signature int -> int can box.
 *
 * In the wrapper the payload's concrete type is erased: the box only knows
 * that the payload can be copied and called. Here the possible payload types
 * are the alternatives of one datatype, and the dynamic dispatch of a call
 * becomes a `match` in `Apply`.
 */
module Callables {

  /** Amount by which the stateful functor bumps its counter on every call. */
  const CounterStep: int := 10

  /** A payload: what a `Model` holds by value. */
  datatype Payload =
      /** A plain (free) function: no state of its own. */
    | FreeFunction(f: int -> int)
      /** A functor whose call operator bumps its counter and returns its argument. */
    | Counter(data: int)
      /** A closure with a captured value, which it adds to its argument. */
    | Closure(captured: int)
      /** A functor whose answer depends on its state: it adds its argument to its total and returns the new total. */
    | Accumulator(total: int)
  {
    /** A stateless payload is never changed by being called. */
    predicate Stateless() { !Counter? && !Accumulator? }

    /** Both payloads are of the same concrete type. */
    predicate SameType(other: Payload) {
      && (FreeFunction? <==> other.FreeFunction?)
      && (Counter? <==> other.Counter?)
      && (Closure? <==> other.Closure?)
      && (Accumulator? <==> other.Accumulator?)
    }
  }

  /** What one call yields: the returned value and the payload's state afterwards. */
  datatype Step = Step(result: int, next: Payload)

  /** What a sequence of calls yields: the returned values in order and the final state. */
  datatype Trace = Trace(results: seq<int>, final: Payload)

  /** Calling payload `p` with argument `x`. */
  function Apply(p: Payload, x: int): (s: Step)
    // a call can change the payload's state but never its concrete type
    ensures s.next.SameType(p)
    // only a stateful payload is changed by a call
    ensures p.Stateless() ==> s.next == p
  {
    match p
    case FreeFunction(f) => Step(f(x), p)
    case Counter(data) => Step(x, Counter(data + CounterStep))
    case Closure(captured) => Step(captured + x, p)
    case Accumulator(total) => Step(total + x, Accumulator(total + x))
  }

  /** Calling payload `p` once with each argument of `xs`, in order. */
  function Run(p: Payload, xs: seq<int>): (t: Trace)
    ensures |t.results| == |xs|
    ensures t.final.SameType(p)
    ensures p.Stateless() ==> t.final == p
    decreases |xs|
  {
    if xs == [] then Trace([], p)
    else
      var s := Apply(p, xs[0]);
      var rest := Run(s.next, xs[1..]);
      Trace([s.result] + rest.results, rest.final)
  }

  /** Calls compose: running `xs` and then `ys` is running `xs + ys`. */
  lemma {:induction false} RunAppend(p: Payload, xs: seq<int>, ys: seq<int>)
    ensures Run(p, xs + ys).results == Run(p, xs).results + Run(Run(p, xs).final, ys).results
    ensures Run(p, xs + ys).final == Run(Run(p, xs).final, ys).final
    decreases |xs|
  {
    if xs == [] {
      assert xs + ys == ys;
    } else {
      assert (xs + ys)[0] == xs[0];
      assert (xs + ys)[1..] == xs[1..] + ys;
      RunAppend(Apply(p, xs[0]).next, xs[1..], ys);
    }
  }

  /**
   * The counting functor returns each argument unchanged and, after n calls,
   * its counter has grown by n times the step.
   */
  lemma {:induction false} CounterRun(data: int, xs: seq<int>)
    ensures Run(Counter(data), xs).results == xs
    ensures Run(Counter(data), xs).final == Counter(data + CounterStep * |xs|)
    decreases |xs|
  {
    if xs != [] {
      CounterRun(data + CounterStep, xs[1..]);
      assert [xs[0]] + xs[1..] == xs;
    }
  }

  /** The sum of a sequence of arguments. */
  function Sum(xs: seq<int>): int
    decreases |xs|
  {
    if xs == [] then 0 else xs[0] + Sum(xs[1..])
  }

  /**
   * The accumulating functor, after a sequence of calls, holds its starting
   * total plus the sum of the arguments, and its last answer is that total.
   */
  lemma {:induction false} AccumulatorRun(total: int, xs: seq<int>)
    ensures Run(Accumulator(total), xs).final == Accumulator(total + Sum(xs))
    ensures xs != [] ==> Run(Accumulator(total), xs).results[|xs| - 1] == total + Sum(xs)
    decreases |xs|
  {
    if xs != [] {
      AccumulatorRun(total + xs[0], xs[1..]);
    }
  }

  /** A stateless payload answers every call as if it were the first one. */
  lemma {:induction false} StatelessRun(p: Payload, xs: seq<int>)
    requires p.Stateless()
    ensures forall i :: 0 <= i < |xs| ==> Run(p, xs).results[i] == Apply(p, xs[i]).result
    decreases |xs|
  {
    if xs != [] {
      StatelessRun(p, xs[1..]);
      var t := Run(p, xs);
      forall i | 0 <= i < |xs|
        ensures t.results[i] == Apply(p, xs[i]).result
      {
        if i > 0 {
          assert t.results[i] == Run(p, xs[1..]).results[i - 1];
          assert xs[1..][i - 1] == xs[i];
        }
      }
    }
  }
}
