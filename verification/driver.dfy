/**
 * The demo's idle callback `timeStep` and key callback `reset`: a pause latch
 * driven by a pause-at threshold, and a fixed number of solver steps per render.
 * The solver's step and the demo base's per-step hook are opaque; they are
 * recorded as events, and each solver step advances the clock by the step size.
 */
module Driver {

  /** Observable effects of the driver on its collaborators, in call order. */
  datatype Event =
    | SolverStep     // simulation.step(model): advances the clock by one step size
    | BaseStep       // base->step(): the demo base's per-step bookkeeping
    | ModelReset     // model.reset()
    | SolverReset    // simulation.reset()

  /** Driver state: the pause flag, the pause-at threshold, the clock and the steps per render. */
  datatype State = State(paused: bool, pauseAt: real, time: real, stepsPerRender: nat)

  /** The result of one callback: the new state and the events it caused. */
  datatype Tick = Tick(state: State, trace: seq<Event>)

  /** Result of running steps: the clock afterwards and the events. */
  datatype Run = Run(time: real, trace: seq<Event>)

  /** A trace of k solver-step / base-step pairs, in that order. */
  predicate Alternating(trace: seq<Event>, k: nat) {
    |trace| == 2 * k &&
    forall i :: 0 <= i < |trace| ==> trace[i] == (if i % 2 == 0 then SolverStep else BaseStep)
  }

  /** The clock after `steps` solver steps of size h from t: the clock after one step fewer, plus h. */
  function Advance(t: real, steps: nat, h: real): real
    decreases steps
  {
    if steps == 0 then t else Advance(t, steps - 1, h) + h
  }

  /** Stepping k times advances the clock by k * h. */
  lemma {:induction false} AdvanceIsProduct(t: real, steps: nat, h: real)
    ensures Advance(t, steps, h) == t + steps as real * h
    decreases steps
  {
    if steps > 0 {
      AdvanceIsProduct(t, steps - 1, h);
    }
  }

  /** a steps followed by b steps are a + b steps. */
  lemma {:induction false} AdvanceAdd(t: real, a: nat, b: nat, h: real)
    ensures Advance(Advance(t, a, h), b, h) == Advance(t, a + b, h)
    decreases b
  {
    if b > 0 {
      AdvanceAdd(t, a, b - 1, h);
    }
  }

  /** Taking the first step before the remaining ones gives the same clock. */
  lemma AdvanceFirst(t: real, steps: nat, h: real)
    requires steps > 0
    ensures Advance(t + h, steps - 1, h) == Advance(t, steps, h)
  {
    AdvanceAdd(t, 1, steps - 1, h);
  }

  /** A later start stays later after the same steps. */
  lemma {:induction false} AdvanceMono(t: real, t': real, steps: nat, h: real)
    requires t <= t'
    ensures Advance(t, steps, h) <= Advance(t', steps, h)
    decreases steps
  {
    if steps > 0 {
      AdvanceMono(t, t', steps - 1, h);
    }
  }

  /**
   * The loop body of `timeStep` run k times from clock value t: each solver
   * step moves the clock by h and is immediately followed by one base step.
   */
  function RunSteps(t: real, k: nat, h: real): (r: Run)
    decreases k
    ensures r.time == Advance(t, k, h)
    ensures Alternating(r.trace, k)
  {
    if k == 0 then Run(t, [])
    else
      var rest := RunSteps(t + h, k - 1, h);
      AdvanceFirst(t, k, h);
      Run(rest.time, [SolverStep, BaseStep] + rest.trace)
  }

  /** The auto-pause condition: a positive threshold strictly below the current time. */
  predicate PauseDue(s: State) {
    s.pauseAt > 0.0 && s.pauseAt < s.time
  }

  /**
   * `timeStep`: latch the pause flag when the threshold has been passed, then,
   * unless paused, run the configured number of steps.
   */
  function TimeStep(s: State, h: real): (r: Tick)
    ensures r.state.pauseAt == s.pauseAt && r.state.stepsPerRender == s.stepsPerRender
    ensures r.state.paused <==> s.paused || PauseDue(s)
    ensures r.state.paused ==> r.trace == [] && r.state.time == s.time
    ensures !r.state.paused ==>
      Alternating(r.trace, s.stepsPerRender) && r.state.time == Advance(s.time, s.stepsPerRender, h)
  {
    var latched := s.(paused := s.paused || PauseDue(s));
    if latched.paused then Tick(latched, [])
    else
      var run := RunSteps(s.time, s.stepsPerRender, h);
      Tick(latched.(time := run.time), run.trace)
  }

  /**
   * `reset`: reset the model and the solver, then set the clock to zero.
   * The pause flag, threshold and steps per render are kept.
   */
  function Reset(s: State): (r: Tick)
    ensures r.state == s.(time := 0.0)
    ensures r.trace == [ModelReset, SolverReset]
  {
    Tick(State(s.paused, s.pauseAt, 0.0, s.stepsPerRender), [ModelReset, SolverReset])
  }

  /** n render ticks in a row, with the concatenated events. */
  function Ticks(s: State, n: nat, h: real): Tick
    decreases n
  {
    if n == 0 then Tick(s, [])
    else
      var first := TimeStep(s, h);
      var rest := Ticks(first.state, n - 1, h);
      Tick(rest.state, first.trace + rest.trace)
  }

  /** Once paused, any number of ticks changes nothing and calls nothing. */
  lemma {:induction false} PausedTicksAreInert(s: State, n: nat, h: real)
    requires s.paused
    ensures Ticks(s, n, h) == Tick(s, [])
  {
    if n > 0 {
      PausedTicksAreInert(s, n - 1, h);
    }
  }

  /**
   * Without a pause threshold, n ticks from a running state advance the clock
   * by exactly n * k steps and call the solver n * k times.
   */
  lemma {:induction false} RunningClock(s: State, n: nat, h: real)
    requires !s.paused && s.pauseAt <= 0.0
    ensures Ticks(s, n, h).state == s.(time := Advance(s.time, n * s.stepsPerRender, h))
    ensures Alternating(Ticks(s, n, h).trace, n * s.stepsPerRender)
    decreases n
  {
    if n > 0 {
      var k := s.stepsPerRender;
      var first := TimeStep(s, h);
      RunningClock(first.state, n - 1, h);
      var rest := Ticks(first.state, n - 1, h);
      assert n * k == k + (n - 1) * k;
      AdvanceAdd(s.time, k, (n - 1) * k, h);
      AlternatingAppend(first.trace, k, rest.trace, (n - 1) * k);
    }
  }

  /** Two alternating traces concatenate to an alternating trace. */
  lemma AlternatingAppend(t1: seq<Event>, k1: nat, t2: seq<Event>, k2: nat)
    requires Alternating(t1, k1) && Alternating(t2, k2)
    ensures Alternating(t1 + t2, k1 + k2)
  {
    forall i | 0 <= i < |t1 + t2|
      ensures (t1 + t2)[i] == (if i % 2 == 0 then SolverStep else BaseStep)
    {
      if i >= |t1| {
        assert (i - |t1|) % 2 == i % 2;
      }
    }
  }

  /**
   * The pause threshold is compared with the clock before the tick's steps:
   * a tick that starts at or below the threshold runs all its steps even if
   * they carry the clock past it, and the next tick latches the pause and
   * runs nothing.
   */
  lemma PauseAtOvershoot(s: State, h: real)
    requires !s.paused && s.pauseAt > 0.0 && s.time <= s.pauseAt
    ensures var t1 := TimeStep(s, h);
      !t1.state.paused && |t1.trace| == 2 * s.stepsPerRender &&
      (t1.state.time > s.pauseAt ==> TimeStep(t1.state, h) == Tick(t1.state.(paused := true), []))
  {
  }

  /**
   * With a positive threshold, the clock never runs further past the
   * threshold than one render's worth of steps, however many ticks happen.
   */
  lemma {:induction false} ClockStaysNearThreshold(s: State, n: nat, h: real)
    requires s.pauseAt > 0.0
    requires s.time <= Advance(s.pauseAt, s.stepsPerRender, h)
    ensures Ticks(s, n, h).state.time <= Advance(s.pauseAt, s.stepsPerRender, h)
    decreases n
  {
    if n > 0 {
      var first := TimeStep(s, h);
      if !first.state.paused {
        AdvanceMono(s.time, s.pauseAt, s.stepsPerRender, h);
      }
      ClockStaysNearThreshold(first.state, n - 1, h);
    }
  }

  /** After a reset the clock is zero, so the threshold cannot latch pause on the next tick. */
  lemma ResetDoesNotLatch(s: State, h: real)
    ensures TimeStep(Reset(s).state, h).state.paused == s.paused
  {
  }

  /** Reset does not resume a paused driver: ticks after it still do nothing. */
  lemma ResetKeepsPause(s: State, n: nat, h: real)
    requires s.paused
    ensures Ticks(Reset(s).state, n, h) == Tick(s.(time := 0.0), [])
  {
    PausedTicksAreInert(Reset(s).state, n, h);
  }
}
