/** Loops over callbacks that may or may not be asynchronous. */
module MaybePromise {
  import opened Options

  /** What a call does: it returns a value, returns a promise that is fulfilled or rejected later, or throws. */
  datatype Reply<+V, +E> = Return(value: V) | Fulfilled(value: V) | RejectedWith(error: E) | Throw(error: E)

  /** What an operation ends with: a value or a failure, bare or in a promise. */
  datatype Result<+R, +E> = Bare(result: R) | Thrown(error: E) | Promised(result: R) | Refused(error: E)

  /** A call, by what it is given besides the element and its number. */
  datatype Call<+S, +T> = Call(state: S, elem: T, index: nat)

  /** A callback answers each call by everything that has been called so far. */
  type Callback<!S, !T, V, E> = seq<Call<S, T>> -> Reply<V, E>

  datatype Next<+S, +R> = More(state: S) | Stop(result: R)

  /** One kind of loop: what it does with the value of a call, and what it ends with when there are no more elements. */
  datatype Loop<!S, !T, !V, R> = Loop(step: (S, T, nat, V) -> Next<S, R>, finish: S -> R)

  predicate IsAsync<V, E>(r: Reply<V, E>) { r.Fulfilled? || r.RejectedWith? }

  predicate Fails<V, E>(r: Reply<V, E>) { r.RejectedWith? || r.Throw? }

  datatype Outcome<+R, +E> = Ok(result: R) | Failed(error: E)

  datatype Run<+S, +T, +R, +E> = Run(calls: seq<Call<S, T>>, outcome: Outcome<R, E>)

  /** The plain loop: it waits for every call and makes no difference between bare and promised. */
  function Plain<S, T, V, R, E>(loop: Loop<S, T, V, R>, arr: seq<T>, fn: Callback<S, T, V, E>, state: S, i: nat,
                                calls: seq<Call<S, T>>): Run<S, T, R, E>
    requires i <= |arr|
    decreases |arr| - i
  {
    if i == |arr| then Run(calls, Ok(loop.finish(state)))
    else
      var more := calls + [Call(state, arr[i], i)];
      var reply := fn(more);
      if Fails(reply) then Run(more, Failed(reply.error))
      else
        var next := loop.step(state, arr[i], i, reply.value);
        if next.Stop? then Run(more, Ok(next.result)) else Plain(loop, arr, fn, next.state, i + 1, more)
  }

  /** The loop as the program has it: bare until a call answers with a promise, and asynchronous from then on. */
  method Sequential<S, T, V, R, E>(loop: Loop<S, T, V, R>, arr: seq<T>, fn: Callback<S, T, V, E>, initial: S)
    returns (result: Result<R, E>, calls: seq<Call<S, T>>)
    ensures var plain := Plain(loop, arr, fn, initial, 0, []);
            && calls == plain.calls
            && result == if exists k :: 0 < k <= |calls| && IsAsync(fn(calls[..k]))
                         then (match plain.outcome case Ok(r) => Promised(r) case Failed(e) => Refused(e))
                         else (match plain.outcome case Ok(r) => Bare(r) case Failed(e) => Thrown(e))
  {
    var state, i := initial, 0;
    calls := [];
    while i < |arr|
      invariant 0 <= i <= |arr|
      invariant Plain(loop, arr, fn, initial, 0, []) == Plain(loop, arr, fn, state, i, calls)
      invariant forall k :: 0 < k <= |calls| ==> !IsAsync(fn(calls[..k]))
    {
      ghost var before := calls;
      calls := calls + [Call(state, arr[i], i)];
      assert calls[..|calls|] == calls && forall k :: 0 < k < |calls| ==> calls[..k] == before[..k];
      var reply := fn(calls);
      if IsAsync(reply) {
        ghost var made := calls;
        result, calls := ChainRemaining(loop, arr, fn, state, i, calls, reply);
        assert calls[..|made|] == made;
        return;
      }
      if reply.Throw? { return Thrown(reply.error), calls; }
      var next := loop.step(state, arr[i], i, reply.value);
      if next.Stop? { return Bare(next.result), calls; }
      state, i := next.state, i + 1;
    }
    result := Bare(loop.finish(state));
  }

  /** The rest of the loop once call number `start` has answered with a promise. */
  method ChainRemaining<S, T, V, R, E>(loop: Loop<S, T, V, R>, arr: seq<T>, fn: Callback<S, T, V, E>, initial: S,
                                       start: nat, made: seq<Call<S, T>>, current: Reply<V, E>)
    returns (result: Result<R, E>, calls: seq<Call<S, T>>)
    requires start < |arr| && made != [] && made[|made| - 1] == Call(initial, arr[start], start)
    requires current == fn(made) && IsAsync(current)
    ensures var plain := Plain(loop, arr, fn, initial, start, made[..|made| - 1]);
            && calls == plain.calls && made <= calls
            && result == match plain.outcome case Ok(r) => Promised(r) case Failed(e) => Refused(e)
  {
    calls := made;
    assert made[..|made| - 1] + [Call(initial, arr[start], start)] == made;
    if current.RejectedWith? { return Refused(current.error), calls; }
    var next := loop.step(initial, arr[start], start, current.value);
    if next.Stop? { return Promised(next.result), calls; }
    var state, i := next.state, start + 1;
    while i < |arr|
      invariant start < i <= |arr| && made <= calls
      invariant Plain(loop, arr, fn, initial, start, made[..|made| - 1]) == Plain(loop, arr, fn, state, i, calls)
    {
      calls := calls + [Call(state, arr[i], i)];
      var reply := fn(calls);
      if Fails(reply) { return Refused(reply.error), calls; }
      next := loop.step(state, arr[i], i, reply.value);
      if next.Stop? { return Promised(next.result), calls; }
      state, i := next.state, i + 1;
    }
    result := Promised(loop.finish(state));
  }

  // The loops there are.

  function MapLoop<T, V>(): Loop<seq<V>, T, V, seq<V>> { Loop((s, x, i, v) => More(s + [v]), s => s) }

  function ReduceLoop<T, V>(): Loop<V, T, V, V> { Loop((s, x, i, v) => More(v), s => s) }

  function ForEachLoop<T, V>(): Loop<(), T, V, ()> { Loop((s, x, i, v) => More(s), s => s) }

  function FilterLoop<T, V>(truthy: V -> bool): Loop<seq<T>, T, V, seq<T>> {
    Loop((s, x, i, v) => More(if truthy(v) then s + [x] else s), s => s)
  }

  function SomeLoop<T, V>(truthy: V -> bool): Loop<(), T, V, bool> {
    Loop((s, x, i, v) => if truthy(v) then Stop(true) else More(s), s => false)
  }

  function EveryLoop<T, V>(truthy: V -> bool): Loop<(), T, V, bool> {
    Loop((s, x, i, v) => if truthy(v) then More(s) else Stop(false), s => true)
  }

  function FindIndexLoop<T, V>(truthy: V -> bool): Loop<(), T, V, int> {
    Loop((s, x, i, v) => if truthy(v) then Stop(i) else More(s), s => -1)
  }

  // What they mean.

  /** What call number `k` has come back with. */
  function ReplyTo<S, T, V, E>(fn: Callback<S, T, V, E>, calls: seq<Call<S, T>>, k: nat): Reply<V, E>
    requires k < |calls|
  {
    fn(calls[..k + 1])
  }

  /** The elements are taken in order, and a failure ends the loop. */
  ghost predicate InOrder<S, T, V, E>(arr: seq<T>, fn: Callback<S, T, V, E>, calls: seq<Call<S, T>>) {
    && |calls| <= |arr|
    && (forall k :: 0 <= k < |calls| ==> calls[k].index == k && calls[k].elem == arr[k])
    && (forall k :: 0 <= k < |calls| - 1 ==> !Fails(ReplyTo(fn, calls, k)))
  }

  /** The calls so far, when the loop is about to take up element `i`. */
  ghost predicate UpTo<S, T, V, E>(arr: seq<T>, fn: Callback<S, T, V, E>, calls: seq<Call<S, T>>, i: nat) {
    |calls| == i <= |arr| && InOrder(arr, fn, calls) && forall k :: 0 <= k < i ==> !Fails(ReplyTo(fn, calls, k))
  }

  lemma {:induction false} CallOne<S, T, V, E>(arr: seq<T>, fn: Callback<S, T, V, E>, calls: seq<Call<S, T>>, i: nat,
      state: S)
    requires UpTo(arr, fn, calls, i) && i < |arr|
    ensures var more := calls + [Call(state, arr[i], i)];
            && InOrder(arr, fn, more) && (!Fails(fn(more)) ==> UpTo(arr, fn, more, i + 1)) &&
               ReplyTo(fn, more, i) == fn(more)
            && forall k :: 0 <= k < i ==> ReplyTo(fn, more, k) == ReplyTo(fn, calls, k)
  {
    var more := calls + [Call(state, arr[i], i)];
    assert more[..i + 1] == more;
    forall k | 0 <= k < i
      ensures ReplyTo(fn, more, k) == ReplyTo(fn, calls, k)
    {
      assert more[..k + 1] == calls[..k + 1];
    }
  }

  /** Some: it is true exactly if the last call made is the first to be truthy; otherwise every element was tried. */
  lemma {:induction false} SomeMeans<T, V, E>(truthy: V -> bool, arr: seq<T>, fn: Callback<(), T, V, E>, i: nat,
                                              calls: seq<Call<(), T>>)
    requires UpTo(arr, fn, calls, i) && forall k :: 0 <= k < i ==> !truthy(ReplyTo(fn, calls, k).value)
    ensures var run := Plain(SomeLoop<T, V>(truthy), arr, fn, (), i, calls);
            var n := |run.calls|;
            && InOrder(arr, fn, run.calls)
            && (run.outcome.Failed? <==> n > 0 && Fails(ReplyTo(fn, run.calls, n - 1)))
            && (forall k :: 0 <= k < n - 1 ==> !truthy(ReplyTo(fn, run.calls, k).value))
            && (run.outcome.Ok? ==> if run.outcome.result then n > 0 && truthy(ReplyTo(fn, run.calls, n - 1).value)
                                    else n == |arr| && (n > 0 ==> !truthy(ReplyTo(fn, run.calls, n - 1).value)))
    decreases |arr| - i
  {
    if i < |arr| {
      var more := calls + [Call((), arr[i], i)];
      CallOne(arr, fn, calls, i, ());
      if !Fails(fn(more)) && !truthy(fn(more).value) { SomeMeans(truthy, arr, fn, i + 1, more); }
    }
  }

  /** Every: it is false exactly if the last call made is the first to be falsy; otherwise every element was tried. */
  lemma {:induction false} EveryMeans<T, V, E>(truthy: V -> bool, arr: seq<T>, fn: Callback<(), T, V, E>, i: nat,
                                               calls: seq<Call<(), T>>)
    requires UpTo(arr, fn, calls, i) && forall k :: 0 <= k < i ==> truthy(ReplyTo(fn, calls, k).value)
    ensures var run := Plain(EveryLoop<T, V>(truthy), arr, fn, (), i, calls);
            var n := |run.calls|;
            && InOrder(arr, fn, run.calls)
            && (run.outcome.Failed? <==> n > 0 && Fails(ReplyTo(fn, run.calls, n - 1)))
            && (forall k :: 0 <= k < n - 1 ==> truthy(ReplyTo(fn, run.calls, k).value))
            && (run.outcome.Ok? ==> if run.outcome.result
                                    then n == |arr| && (n > 0 ==> truthy(ReplyTo(fn, run.calls, n - 1).value))
                                    else n > 0 && !truthy(ReplyTo(fn, run.calls, n - 1).value))
    decreases |arr| - i
  {
    if i < |arr| {
      var more := calls + [Call((), arr[i], i)];
      CallOne(arr, fn, calls, i, ());
      if !Fails(fn(more)) && truthy(fn(more).value) { EveryMeans(truthy, arr, fn, i + 1, more); }
    }
  }

  /** Find index: the number of the first element with a truthy call, after which no more are made, or -1. */
  lemma {:induction false} FindIndexMeans<T, V, E>(truthy: V -> bool, arr: seq<T>, fn: Callback<(), T, V, E>, i: nat,
                                                   calls: seq<Call<(), T>>)
    requires UpTo(arr, fn, calls, i) && forall k :: 0 <= k < i ==> !truthy(ReplyTo(fn, calls, k).value)
    ensures var run := Plain(FindIndexLoop<T, V>(truthy), arr, fn, (), i, calls);
            var n := |run.calls|;
            && InOrder(arr, fn, run.calls)
            && (run.outcome.Failed? <==> n > 0 && Fails(ReplyTo(fn, run.calls, n - 1)))
            && (forall k :: 0 <= k < n - 1 ==> !truthy(ReplyTo(fn, run.calls, k).value))
            && (run.outcome.Ok? ==> if run.outcome.result == -1
                                    then n == |arr| && (n > 0 ==> !truthy(ReplyTo(fn, run.calls, n - 1).value))
                                    else run.outcome.result == n - 1 && n > 0
                                         && truthy(ReplyTo(fn, run.calls, n - 1).value))
    decreases |arr| - i
  {
    if i < |arr| {
      var more := calls + [Call((), arr[i], i)];
      CallOne(arr, fn, calls, i, ());
      if !Fails(fn(more)) && !truthy(fn(more).value) { FindIndexMeans(truthy, arr, fn, i + 1, more); }
    }
  }

  /** Map: every element is tried, and the results are what the calls came back with, in order. */
  lemma {:induction false} MapMeans<T, V, E>(arr: seq<T>, fn: Callback<seq<V>, T, V, E>, i: nat,
      calls: seq<Call<seq<V>, T>>,
                                             state: seq<V>)
    requires UpTo(arr, fn, calls, i) && |state| == i && forall k ::
               0 <= k < i ==> state[k] == ReplyTo(fn, calls, k).value
    ensures var run := Plain(MapLoop<T, V>(), arr, fn, state, i, calls);
            var n := |run.calls|;
            && InOrder(arr, fn, run.calls)
            && (run.outcome.Failed? <==> n > 0 && Fails(ReplyTo(fn, run.calls, n - 1)))
            && (run.outcome.Ok? ==>
                  && n == |arr| == |run.outcome.result| && UpTo(arr, fn, run.calls, n)
                  && forall k :: 0 <= k < n ==> run.outcome.result[k] == ReplyTo(fn, run.calls, k).value)
    decreases |arr| - i
  {
    if i < |arr| {
      var more := calls + [Call(state, arr[i], i)];
      CallOne(arr, fn, calls, i, state);
      if !Fails(fn(more)) { MapMeans(arr, fn, i + 1, more, state + [fn(more).value]); }
    }
  }

  /** Each call is given what the one before it came back with. */
  ghost predicate Chained<T, V, E>(fn: Callback<V, T, V, E>, calls: seq<Call<V, T>>, initial: V)
  {
    && (calls != [] ==> calls[0].state == initial)
    && forall k :: 0 <= k < |calls| - 1 ==>
         !Fails(ReplyTo(fn, calls, k)) && calls[k + 1].state == ReplyTo(fn, calls, k).value
  }

  /** Reduce: every element is tried, each call builds on the one before, and the last one gives the result. */
  lemma {:induction false} ReduceMeans<T, V, E>(arr: seq<T>, fn: Callback<V, T, V, E>, initial: V, i: nat,
      calls: seq<Call<V, T>>,
                                                state: V)
    requires UpTo(arr, fn, calls, i) && Chained(fn, calls, initial)
    requires state == if i == 0 then initial else ReplyTo(fn, calls, i - 1).value
    ensures var run := Plain(ReduceLoop<T, V>(), arr, fn, state, i, calls);
            var n := |run.calls|;
            && InOrder(arr, fn, run.calls) && Chained(fn, run.calls, initial)
            && (run.outcome.Failed? <==> n > 0 && Fails(ReplyTo(fn, run.calls, n - 1)))
            && (run.outcome.Ok? ==>
                  n == |arr| && run.outcome.result == if n == 0 then initial else ReplyTo(fn, run.calls, n - 1).value)
    decreases |arr| - i
  {
    if i < |arr| {
      var more := calls + [Call(state, arr[i], i)];
      CallOne(arr, fn, calls, i, state);
      if !Fails(fn(more)) { ReduceMeans(arr, fn, initial, i + 1, more, fn(more).value); }
    }
  }

  /** For each: every element is tried. */
  lemma {:induction false} ForEachMeans<T, V, E>(arr: seq<T>, fn: Callback<(), T, V, E>, i: nat,
                                                  calls: seq<Call<(), T>>)
    requires UpTo(arr, fn, calls, i)
    ensures var run := Plain(ForEachLoop<T, V>(), arr, fn, (), i, calls);
            var n := |run.calls|;
            && InOrder(arr, fn, run.calls) && (run.outcome.Ok? ==> n == |arr|)
            && (run.outcome.Failed? <==> n > 0 && Fails(ReplyTo(fn, run.calls, n - 1)))
    decreases |arr| - i
  {
    if i < |arr| {
      var more := calls + [Call((), arr[i], i)];
      CallOne(arr, fn, calls, i, ());
      if !Fails(fn(more)) { ForEachMeans(arr, fn, i + 1, more); }
    }
  }

  /** The elements whose calls came back truthy. */
  function Chosen<T, V, E>(truthy: V -> bool, fn: Callback<seq<T>, T, V, E>, calls: seq<Call<seq<T>, T>>): seq<T>
    decreases |calls|
  {
    if calls == [] then []
    else
      var reply := fn(calls);
      Chosen(truthy, fn, calls[..|calls| - 1])
      + if !Fails(reply) && truthy(reply.value) then [calls[|calls| - 1].elem] else []
  }

  /** Filter: every element is tried, and those whose call is truthy are kept, in order. */
  lemma {:induction false} FilterMeans<T, V, E>(truthy: V -> bool, arr: seq<T>, fn: Callback<seq<T>, T, V, E>, i: nat,
                                                   calls: seq<Call<seq<T>, T>>, state: seq<T>)
    requires UpTo(arr, fn, calls, i) && state == Chosen(truthy, fn, calls)
    ensures var run := Plain(FilterLoop<T, V>(truthy), arr, fn, state, i, calls);
            && InOrder(arr, fn, run.calls)
            && (run.outcome.Ok? ==> |run.calls| == |arr| && run.outcome.result == Chosen(truthy, fn, run.calls))
    decreases |arr| - i
  {
    if i < |arr| {
      var more := calls + [Call(state, arr[i], i)];
      CallOne(arr, fn, calls, i, state);
      assert more[..|more| - 1] == calls;
      if !Fails(fn(more)) {
        var next := if truthy(fn(more).value) then state + [arr[i]] else state;
        assert state + [] == state && Chosen(truthy, fn, more) == next;
        FilterMeans(truthy, arr, fn, i + 1, more, next);
      }
    }
  }

  // Catching.

  /** A promise for what a handler ends with. */
  function Settled<R, E>(r: Result<R, E>): Result<R, E> {
    match r
    case Bare(v) => Promised(v)
    case Thrown(e) => Refused(e)
    case _ => r
  }

  /** A failure is handled whether it is thrown or a rejection. */
  function TryCatch<R, E>(tried: Result<R, E>, catching: E -> Result<R, E>): Result<R, E> {
    match tried
    case Thrown(e) => catching(e)
    case Refused(e) => Settled(catching(e))
    case _ => tried
  }

  function Awaited<R, E>(r: Result<R, E>): Outcome<R, E> {
    match r
    case Bare(v) => Ok(v)
    case Promised(v) => Ok(v)
    case Thrown(e) => Failed(e)
    case Refused(e) => Failed(e)
  }

  /** Catching gives what plain catching would give, and is bare exactly if whatever ran was. */
  lemma {:induction false} TryCatchPlain<R, E>(tried: Result<R, E>, catching: E -> Result<R, E>)
    ensures var plain := Awaited(tried);
            Awaited(TryCatch(tried, catching)) == if plain.Failed? then Awaited(catching(plain.error)) else plain
    ensures var done := TryCatch(tried, catching);
            (done.Bare? || done.Thrown?) <==>
              tried.Bare? || (tried.Thrown? && (catching(tried.error).Bare? || catching(tried.error).Thrown?))
  {
  }
}
