/** A loop that transforms a list element by element while carrying a counter from one element to
    the next, and stops at the first element whose step fails. The decoder's tool-call loop is one:
    the counter is the number of fresh ids drawn so far. */
module Threading {
  import opened Wrappers

  /** Apply `step` to every element in order, starting with counter `n` and advancing it with
      `next` after each element; the first failure is the result. */
  function Thread<X, Y, E>(step: (nat, X) -> Result<Y, E>, next: (nat, X) -> nat, n: nat, xs: seq<X>)
    : (r: Result<seq<Y>, E>)
    ensures r.Success? ==> |r.value| == |xs|
    decreases |xs|
  {
    if |xs| == 0 then Success([])
    else
      var head :- step(n, xs[0]);
      var tail :- Thread(step, next, next(n, xs[0]), xs[1..]);
      Success([head] + tail)
  }

  /** The counter when the loop reaches element `i`. */
  function Counter<X>(next: (nat, X) -> nat, n: nat, xs: seq<X>, i: nat): nat
    requires i <= |xs|
    decreases i
  {
    if i == 0 then n else next(Counter(next, n, xs, i - 1), xs[i - 1])
  }

  /** Counting over the whole list agrees with one step and then counting over the rest. */
  lemma {:induction false} CounterTail<X>(next: (nat, X) -> nat, n: nat, xs: seq<X>, i: nat)
    requires 0 < i <= |xs|
    ensures Counter(next, n, xs, i) == Counter(next, next(n, xs[0]), xs[1..], i - 1)
    decreases i
  {
    if i > 1 {
      CounterTail(next, n, xs, i - 1);
      assert xs[1..][i - 2] == xs[i - 1];
    }
  }

  /** A successful loop succeeded at every element, and its i-th result is the step's result on
      element i at the counter reached there. */
  lemma {:induction false} ThreadEach<X, Y, E>(step: (nat, X) -> Result<Y, E>, next: (nat, X) -> nat,
                                               n: nat, xs: seq<X>, i: nat)
    requires Thread(step, next, n, xs).Success? && i < |xs|
    ensures step(Counter(next, n, xs, i), xs[i]).Success?
    ensures Thread(step, next, n, xs).value[i] == step(Counter(next, n, xs, i), xs[i]).value
    decreases |xs|
  {
    if i > 0 {
      ThreadEach(step, next, next(n, xs[0]), xs[1..], i - 1);
      CounterTail(next, n, xs, i);
      assert xs[1..][i - 1] == xs[i];
    }
  }

  /** A failing loop failed at some element, every element before which succeeded; its error is
      that element's. */
  lemma {:induction false} ThreadFails<X, Y, E>(step: (nat, X) -> Result<Y, E>, next: (nat, X) -> nat,
                                                n: nat, xs: seq<X>)
    returns (k: nat)
    requires Thread(step, next, n, xs).Failure?
    ensures k < |xs|
    ensures forall j :: 0 <= j < k ==> step(Counter(next, n, xs, j), xs[j]).Success?
    ensures step(Counter(next, n, xs, k), xs[k]) == Failure(Thread(step, next, n, xs).error)
    decreases |xs|
  {
    if step(n, xs[0]).Failure? {
      k := 0;
    } else {
      var k1 := ThreadFails(step, next, next(n, xs[0]), xs[1..]);
      k := k1 + 1;
      forall j | 0 < j <= k
        ensures Counter(next, n, xs, j) == Counter(next, next(n, xs[0]), xs[1..], j - 1)
      {
        CounterTail(next, n, xs, j);
      }
      forall j | 0 < j <= k ensures xs[j] == xs[1..][j - 1] {
      }
    }
  }
}
