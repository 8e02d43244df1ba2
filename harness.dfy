/** The measurement loop of the benchmark's entry point: each batch resets the
    emulation core, steps it a fixed number of times, and feeds the batch's
    elapsed time into the rolling average, which is then reported.
    The core is a foreign library: its runtime state is a type parameter,
    its reset baseline a value and its Iterate step a function, all supplied
    by the caller. Clock readings are supplied as per-batch elapsed times. */
module Harness {
  import opened RollingAverage

  /** The largest value the loop counter `i` (a cc_u16f) is guaranteed to hold. */
  const CounterMax: nat := 0xFFFF

  /** `++i` on a loop counter that holds values below `modulus` (0x1_0000 for
      a cc_u16f of exactly 16 bits): it wraps to 0 after its largest value. */
  function CounterStep(i: nat, modulus: nat): (next: nat)
    requires i < modulus
    ensures next < modulus
    ensures i + 1 < modulus ==> next == i + 1
    ensures i + 1 == modulus ==> next == 0
  {
    (i + 1) % modulus
  }

  /** The timing loop as written (benchmark.c:237, 270) with a counter
      narrower than `total_iterations`: when the count reaches the counter's
      modulus, every value the counter can hold, before or after `++i`,
      still passes the guard `i < total_iterations`, so the loop never ends. */
  lemma NarrowCounterNeverExits(modulus: nat, totalIterations: nat, i: nat)
    requires i < modulus <= totalIterations
    ensures i < totalIterations
    ensures CounterStep(i, modulus) < totalIterations
  {
  }

  /** The 16-bit instance: 0x1_0000 iterations, counter at 0xFFFF. */
  lemma SixteenBitCounterWraps()
    ensures CounterStep(CounterMax, CounterMax + 1) == 0
    ensures CounterStep(CounterMax, CounterMax + 1) < CounterMax + 1
  {
    NarrowCounterNeverExits(CounterMax + 1, CounterMax + 1, CounterMax);
  }

  /** The core state after `n` Iterate steps from `s`, in order. */
  function Run<S>(step: S -> S, s: S, n: nat): S
  {
    if n == 0 then s else step(Run(step, s, n - 1))
  }

  /** One emulation session: the core's mutable state and the count of
      Iterate calls made since the most recent reset. */
  class Session<S> {
    const baseline: S
    const step: S -> S
    var state: S
    ghost var iterations: nat

    constructor (baseline: S, step: S -> S)
      ensures this.baseline == baseline && this.step == step
      ensures state == baseline && iterations == 0
    {
      this.baseline := baseline;
      this.step := step;
      state := baseline;
      iterations := 0;
    }

    /** State_Initialise followed by Reset: whatever happened before, the
        core is back at its baseline. */
    method Reset()
      modifies this
      ensures state == baseline && iterations == 0
    {
      state := baseline;
      iterations := 0;
    }

    /** One Iterate call of the core. */
    method Iterate()
      modifies this
      ensures state == step(old(state)) && iterations == old(iterations) + 1
    {
      state := step(state);
      iterations := iterations + 1;
    }
  }

  /** One batch of the timing loop (benchmark.c:265-271): reset, then exactly
      `n` Iterate calls in order. The result depends on `n` alone, never on
      an earlier batch. The counter is as wide as the count, so every count
      ends (the intended behaviour; see NarrowCounterNeverExits). */
  method RunBatch<S>(session: Session<S>, n: nat)
    modifies session
    ensures session.iterations == n
    ensures session.state == Run(session.step, session.baseline, n)
  {
    session.Reset();
    var i: nat := 0;
    while i < n
      invariant i <= n
      invariant session.iterations == i
      invariant session.state == Run(session.step, session.baseline, i)
    {
      session.Iterate();
      i := i + 1;
    }
  }

  /** Resetting twice in a row leaves the core at the baseline whatever
      state it was in before. This rests on Reset's contract, which takes the
      core's documented reset behaviour (back to a fixed baseline) as given:
      the second Reset alone establishes it, nothing is proved about the core. */
  method ResetTwice<S>(session: Session<S>)
    modifies session
    ensures session.state == session.baseline && session.iterations == 0
  {
    session.Reset();
    session.Reset();
  }

  /** The measurement loop (benchmark.c:228-296), run for one batch per entry
      of `elapsed` (the clock readings of the batches, in seconds); the loop
      stops when they run out, standing in for the platform's stop request.
      Report k is the mean of the at most Capacity most recent elapsed times
      up to and including batch k, and every batch ends with exactly `n`
      Iterate calls since its reset, in the state of `n` steps from the
      baseline. */
  method RunController<S>(baseline: S, step: S -> S, n: nat, elapsed: seq<real>)
    returns (reports: seq<real>, finalState: S, ghost batchCalls: seq<nat>, ghost batchEnds: seq<S>)
    ensures |reports| == |elapsed|
    ensures |batchCalls| == |batchEnds| == |elapsed|
    ensures forall k :: 0 <= k < |elapsed| ==> batchCalls[k] == n && batchEnds[k] == Run(step, baseline, n)
    ensures forall k :: 0 <= k < |elapsed| ==> reports[k] == Mean(Recent(elapsed[..k + 1]))
    ensures |elapsed| > 0 ==> finalState == Run(step, baseline, n)
    ensures |elapsed| == 0 ==> finalState == baseline
  {
    var session := new Session(baseline, step);
    var window := new SampleWindow();
    reports, batchCalls, batchEnds := [], [], [];
    var b := 0;
    while b < |elapsed|
      invariant b <= |elapsed|
      invariant window.Valid() && window.History == elapsed[..b]
      invariant fresh(window) && fresh(window.slots)
      invariant session.baseline == baseline && session.step == step
      invariant |reports| == |batchCalls| == |batchEnds| == b
      invariant forall k :: 0 <= k < b ==> batchCalls[k] == n && batchEnds[k] == Run(step, baseline, n)
      invariant forall k :: 0 <= k < b ==> reports[k] == Mean(Recent(elapsed[..k + 1]))
      invariant b > 0 ==> session.state == Run(step, baseline, n)
      invariant b == 0 ==> session.state == baseline
    {
      RunBatch(session, n);
      batchCalls, batchEnds := batchCalls + [session.iterations], batchEnds + [session.state];
      assert elapsed[..b + 1] == elapsed[..b] + [elapsed[b]];
      var avg := window.Record(elapsed[b]);
      reports := reports + [avg];
      b := b + 1;
    }
    finalState := session.state;
  }
}
