/**
 * The chain combinators of Runtime/ChainExtensions.cs: generic operations on
 * any chain receiver `C` that run caller-supplied actions and hand the receiver
 * back. The side effects of those actions are a world `W` threaded through
 * every call: an `Action` is `W -> W`, an `Action<TChain>` is `(W, C) -> W`,
 * a `Func<TChain, T>` is `(W, C) -> (W, T)`.
 *
 * `Traced` worlds pair a world with the list of calls made so far; wrapping an
 * action so that it records its call turns "called exactly once", "never
 * called" and "called in this order" into equations about that list.
 */
module ChainExtensions {

  // ---------------------------------------------------------------------------
  // Then, Assign, Output, When.
  // ---------------------------------------------------------------------------

  /** `Then`: runs `action` and returns the receiver. */
  function Then<C, W>(receiver: C, action: W -> W, world: W): (C, W) {
    (receiver, action(world))
  }

  /** `Assign`: the receiver, the world untouched, and `value` for the out variable. */
  function Assign<C, W, T>(receiver: C, value: T, world: W): (C, W, T) {
    (receiver, world, value)
  }

  /** `Output`: `value`, whatever the receiver. */
  function Output<C, T>(receiver: C, value: T): T {
    value
  }

  /** `When`: runs `action` on the receiver if `condition` holds; returns the receiver either way. */
  function When<C, W>(receiver: C, condition: bool, action: (W, C) -> W, world: W): (C, W) {
    if condition then (receiver, action(world, receiver)) else (receiver, world)
  }

  // ---------------------------------------------------------------------------
  // Recording calls.
  // ---------------------------------------------------------------------------

  /** A world together with the calls made on it so far, oldest first. */
  datatype Traced<W, E> = Traced(world: W, calls: seq<E>)

  /** `action`, recording one `()` per call. */
  function Logged<W>(action: W -> W): Traced<W, ()> -> Traced<W, ()> {
    (t: Traced<W, ()>) => Traced(action(t.world), t.calls + [()])
  }

  /** `action`, recording the receiver it is called with. */
  function LoggedOn<W, C>(action: (W, C) -> W): (Traced<W, C>, C) -> Traced<W, C> {
    (t: Traced<W, C>, c: C) => Traced(action(t.world, c), t.calls + [c])
  }

  /** `action`, recording the element it is called with. */
  function LoggedEach<W, T>(action: (W, T) -> W): (Traced<W, T>, T) -> Traced<W, T> {
    (t: Traced<W, T>, v: T) => Traced(action(t.world, v), t.calls + [v])
  }

  /** `action`, recording the receiver and the element it is called with. */
  function LoggedPair<W, C, T>(action: (W, C, T) -> W): (Traced<W, (C, T)>, C, T) -> Traced<W, (C, T)> {
    (t: Traced<W, (C, T)>, c: C, v: T) => Traced(action(t.world, c, v), t.calls + [(c, v)])
  }

  /** `func`, recording the receiver it is called with. */
  function LoggedFunc<W, C, T>(func: (W, C) -> (W, T)): (Traced<W, C>, C) -> (Traced<W, C>, T) {
    (t: Traced<W, C>, c: C) => var (w, y) := func(t.world, c); (Traced(w, t.calls + [c]), y)
  }

  /** `Then` calls its action exactly once and returns the receiver. */
  lemma ThenCallsOnce<C, W>(receiver: C, action: W -> W, world: W, calls: seq<()>)
    ensures Then(receiver, Logged(action), Traced(world, calls)) == (receiver, Traced(action(world), calls + [()]))
  {
  }

  /** `Assign` hands out `value`, returns the receiver and has no other effect. */
  lemma AssignHasNoEffect<C, W, T>(receiver: C, value: T, world: W)
    ensures Assign(receiver, value, world).0 == receiver
    ensures Assign(receiver, value, world).1 == world
    ensures Assign(receiver, value, world).2 == value
  {
  }

  /** `Output` yields `value` and nothing about the receiver reaches the result. */
  lemma OutputIgnoresReceiver<C, T>(receiver: C, other: C, value: T)
    ensures Output(receiver, value) == value == Output(other, value)
  {
  }

  /**
   * `When` calls its action exactly once, with the receiver, when the condition
   * holds, and never otherwise; it returns the receiver in both cases.
   */
  lemma WhenCallsIff<C, W>(receiver: C, condition: bool, action: (W, C) -> W, world: W, calls: seq<C>)
    ensures When(receiver, condition, LoggedOn(action), Traced(world, calls)).0 == receiver
    ensures When(receiver, condition, LoggedOn(action), Traced(world, calls)).1 ==
            if condition then Traced(action(world, receiver), calls + [receiver]) else Traced(world, calls)
  {
  }

  // ---------------------------------------------------------------------------
  // ForEach over a sequence of values.
  // ---------------------------------------------------------------------------

  /** The world after `action` has run on each of `values`, first to last. */
  function ApplyEach<W, T>(action: (W, T) -> W, values: seq<T>, world: W): W
    decreases |values|
  {
    if |values| == 0 then world
    else action(ApplyEach(action, values[..|values| - 1], world), values[|values| - 1])
  }

  /** Running over `xs + ys` is running over `xs`, then over `ys` from where that left the world. */
  lemma {:induction false} ApplyEachAppend<W, T>(action: (W, T) -> W, xs: seq<T>, ys: seq<T>, world: W)
    ensures ApplyEach(action, xs + ys, world) == ApplyEach(action, ys, ApplyEach(action, xs, world))
    decreases |ys|
  {
    if |ys| == 0 {
      assert xs + ys == xs;
    } else {
      var ys' := ys[..|ys| - 1];
      assert (xs + ys)[..|xs + ys| - 1] == xs + ys';
      ApplyEachAppend(action, xs, ys', world);
    }
  }

  /** `ForEach(values, action)`: runs `action` on each value in order and returns the receiver. */
  method ForEach<C, W, T>(receiver: C, values: seq<T>, action: (W, T) -> W, world: W) returns (r: C, world': W)
    ensures r == receiver
    ensures world' == ApplyEach(action, values, world)
  {
    world' := world;
    for i := 0 to |values|
      invariant world' == ApplyEach(action, values[..i], world)
    {
      assert values[..i + 1][..i] == values[..i];
      world' := action(world', values[i]);
    }
    assert values[..|values|] == values;
    r := receiver;
  }

  /** `ForEach(values, action)` calls `action` exactly once per value, in sequence order. */
  lemma {:induction false} ForEachCallsEachOnceInOrder<W, T>(action: (W, T) -> W, values: seq<T>, world: W, calls: seq<T>)
    ensures ApplyEach(LoggedEach(action), values, Traced(world, calls)) ==
            Traced(ApplyEach(action, values, world), calls + values)
    decreases |values|
  {
    if |values| > 0 {
      var init := values[..|values| - 1];
      ForEachCallsEachOnceInOrder(action, init, world, calls);
      assert calls + init + [values[|values| - 1]] == calls + values;
    }
  }

  /** An `Action<TChain, T>` with the receiver fixed. */
  function WithReceiver<W, C, T>(action: (W, C, T) -> W, receiver: C): (W, T) -> W {
    (w, v) => action(w, receiver, v)
  }

  /** `ForEach(values, action(this, v))`: `ForEach` whose action is also handed the receiver. */
  method ForEachWithReceiver<C, W, T>(receiver: C, values: seq<T>, action: (W, C, T) -> W, world: W)
    returns (r: C, world': W)
    ensures r == receiver
    ensures world' == ApplyEach(WithReceiver(action, receiver), values, world)
  {
    world' := world;
    for i := 0 to |values|
      invariant world' == ApplyEach(WithReceiver(action, receiver), values[..i], world)
    {
      assert values[..i + 1][..i] == values[..i];
      world' := action(world', receiver, values[i]);
    }
    assert values[..|values|] == values;
    r := receiver;
  }

  /** The calls `ForEachWithReceiver` makes: the same receiver with each value, in order. */
  function PairedWith<C, T>(receiver: C, values: seq<T>): seq<(C, T)> {
    seq(|values|, i requires 0 <= i < |values| => (receiver, values[i]))
  }

  /**
   * `ForEachWithReceiver` calls `action` exactly once per value, in order, and
   * every call is handed the same receiver.
   */
  lemma {:induction false} ForEachWithReceiverPassesReceiver<W, C, T>(
    action: (W, C, T) -> W, receiver: C, values: seq<T>, world: W, calls: seq<(C, T)>)
    ensures ApplyEach(WithReceiver(LoggedPair(action), receiver), values, Traced(world, calls)) ==
            Traced(ApplyEach(WithReceiver(action, receiver), values, world), calls + PairedWith(receiver, values))
    decreases |values|
  {
    if |values| > 0 {
      var init := values[..|values| - 1];
      ForEachWithReceiverPassesReceiver(action, receiver, init, world, calls);
      assert PairedWith(receiver, init) + [(receiver, values[|values| - 1])] == PairedWith(receiver, values);
    }
  }

  // ---------------------------------------------------------------------------
  // The producing ForEach and its lazy sequence.
  // ---------------------------------------------------------------------------

  /**
   * The un-materialised `produced` sequence: what the iterator captured, and
   * nothing computed yet.
   */
  datatype Production<!C, !W, T> = Production(receiver: C, func: (W, C) -> (W, T), count: int)

  /** How many elements one enumeration yields: `count`, or none when it is negative. */
  function Calls(count: int): nat {
    if count < 0 then 0 else count
  }

  /**
   * `ForEach(out produced, func, count)`: the receiver, the world untouched (no
   * call of `func` happens here) and the deferred sequence.
   */
  function ForEachProduced<C, W, T>(receiver: C, func: (W, C) -> (W, T), count: int, world: W): (C, W, Production<C, W, T>) {
    (receiver, world, Production(receiver, func, count))
  }

  /** The world after `n` calls of `func` on the receiver, and their results, in call order. */
  function Produce<C, W, T>(func: (W, C) -> (W, T), receiver: C, n: nat, world: W): (r: (W, seq<T>))
    ensures |r.1| == n
  {
    if n == 0 then (world, [])
    else
      var (w, ys) := Produce(func, receiver, n - 1, world);
      var (w', y) := func(w, receiver);
      (w', ys + [y])
  }

  /**
   * One enumeration of `produced`: runs the iterator's loop from its first
   * element, calling `func` on the receiver once per element.
   */
  method Enumerate<C, W, T>(produced: Production<C, W, T>, world: W) returns (world': W, ys: seq<T>)
    ensures (world', ys) == Produce(produced.func, produced.receiver, Calls(produced.count), world)
    ensures |ys| == Calls(produced.count)
  {
    world', ys := world, [];
    var i := 0;
    while i < produced.count
      invariant 0 <= i <= Calls(produced.count)
      invariant (world', ys) == Produce(produced.func, produced.receiver, i, world)
    {
      var step := produced.func(world', produced.receiver);
      world', ys := step.0, ys + [step.1];
      i := i + 1;
    }
  }

  /** Creating the sequence calls nothing. */
  lemma ForEachProducedCallsNothing<C, W, T>(receiver: C, func: (W, C) -> (W, T), count: int, world: W, calls: seq<C>)
    ensures ForEachProduced(receiver, LoggedFunc(func), count, Traced(world, calls)).0 == receiver
    ensures ForEachProduced(receiver, LoggedFunc(func), count, Traced(world, calls)).1 == Traced(world, calls)
  {
  }

  /** The calls one enumeration makes: the receiver, `n` times. */
  function Repeated<C>(receiver: C, n: nat): seq<C> {
    seq(n, _ => receiver)
  }

  /**
   * One enumeration calls `func` exactly `n` times, each time with the
   * receiver, and yields the results in call order.
   */
  lemma {:induction false} ProduceCallsFuncNTimes<C, W, T>(func: (W, C) -> (W, T), receiver: C, n: nat, world: W, calls: seq<C>)
    ensures Produce(LoggedFunc(func), receiver, n, Traced(world, calls)) ==
            (Traced(Produce(func, receiver, n, world).0, calls + Repeated(receiver, n)), Produce(func, receiver, n, world).1)
  {
    if n > 0 {
      ProduceCallsFuncNTimes(func, receiver, n - 1, world, calls);
      var (w, ys) := Produce(func, receiver, n - 1, world);
      var step := func(w, receiver);
      assert Produce(func, receiver, n, world) == (step.0, ys + [step.1]);
      var logged := Traced(w, calls + Repeated(receiver, n - 1));
      assert Produce(LoggedFunc(func), receiver, n - 1, Traced(world, calls)) == (logged, ys);
      assert LoggedFunc(func)(logged, receiver) == (Traced(step.0, logged.calls + [receiver]), step.1);
      assert Produce(LoggedFunc(func), receiver, n, Traced(world, calls)) ==
             (Traced(step.0, logged.calls + [receiver]), ys + [step.1]);
      assert Repeated(receiver, n - 1) + [receiver] == Repeated(receiver, n);
      assert logged.calls + [receiver] == calls + Repeated(receiver, n);
    } else {
      assert calls + Repeated(receiver, 0) == calls;
    }
  }

  /**
   * Nothing is memoised: enumerating `m` more elements after `n` continues
   * calling `func` from the world the first run left, exactly as one run of
   * `n + m` calls would.
   */
  lemma {:induction false} ProduceAgainContinues<C, W, T>(func: (W, C) -> (W, T), receiver: C, n: nat, m: nat, world: W)
    ensures Produce(func, receiver, n + m, world) ==
            var (w, first) := Produce(func, receiver, n, world);
            var (w', second) := Produce(func, receiver, m, w);
            (w', first + second)
    decreases m
  {
    if m > 0 {
      ProduceAgainContinues(func, receiver, n, m - 1, world);
      var (w, first) := Produce(func, receiver, n, world);
      var (w', second) := Produce(func, receiver, m - 1, w);
      var step := func(w', receiver);
      assert Produce(func, receiver, n + m - 1, world) == (w', first + second);
      assert Produce(func, receiver, n + m, world) == (step.0, first + second + [step.1]);
      assert Produce(func, receiver, m, w) == (step.0, second + [step.1]);
      assert first + second + [step.1] == first + (second + [step.1]);
    } else {
      var (w, first) := Produce(func, receiver, n, world);
      assert first + [] == first;
    }
  }

  /** A `func` that bumps a counter and returns its new value. */
  function Increment<C>(): (int, C) -> (int, int) {
    (counter, _) => (counter + 1, counter + 1)
  }

  lemma {:induction false} IncrementProduces<C>(receiver: C, n: nat, counter: int)
    ensures Produce(Increment(), receiver, n, counter) == (counter + n, seq(n, i => counter + i + 1))
  {
    if n > 0 {
      IncrementProduces(receiver, n - 1, counter);
      var ys := seq(n - 1, i => counter + i + 1);
      assert Produce(Increment(), receiver, n, counter) == (counter + n, ys + [counter + n]);
      assert ys + [counter + n] == seq(n, i => counter + i + 1);
    } else {
      assert seq(0, i => counter + i + 1) == [];
    }
  }

  /**
   * Three elements produced by a counting `func`: creating the sequence leaves
   * the counter alone, the first enumeration yields 1, 2, 3 and the second,
   * re-running `func`, yields 4, 5, 6.
   */
  method EnumerateTwice<C>(receiver: C) returns (before: int, first: seq<int>, between: int, second: seq<int>, after: int)
    ensures before == 0 && first == [1, 2, 3] && between == 3 && second == [4, 5, 6] && after == 6
  {
    var chain := ForEachProduced(receiver, Increment(), 3, 0);
    var counter, produced := chain.1, chain.2;
    before := counter;
    counter, first := Enumerate(produced, counter);
    between := counter;
    counter, second := Enumerate(produced, counter);
    after := counter;
    IncrementProduces(receiver, 3, 0);
    IncrementProduces(receiver, 3, 3);
  }
}
