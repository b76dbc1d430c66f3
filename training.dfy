/**
 * The step schedule of the training loop in `train.py`: gradient-accumulation gating, the
 * gradient-step counter, the interval loss accumulators and their reset after logging,
 * periodic and final checkpoints, and the stop condition. Every fabric, optimizer, scheduler,
 * checkpoint and logging call is an abstract `Event`; the loss of a micro-batch and whether it
 * is NaN or infinite are inputs.
 */
module Training {
  import opened Wrappers

  /**
   * The schedule parameters: gradient accumulation steps, the logging, checkpointing and
   * evaluation intervals, and the number of gradient steps to train for.
   */
  datatype Params = Params(accumulationSteps: nat, logEvery: nat, saveEvery: nat, evalEvery: nat,
                           trainingSteps: nat)

  /** The intervals are divisors in the loop; zero would raise `ZeroDivisionError`. */
  predicate ValidParams(p: Params)
  {
    p.accumulationSteps > 0 && p.logEvery > 0 && p.saveEvery > 0 && p.evalEvery > 0
  }

  /** The logged average loss: a quotient, or `float('inf')` when no finite loss was seen. */
  datatype AvgLoss = Finite(value: real) | Infinity

  datatype Event =
    | SavedConfig
    | SavedCheckpoint(step: nat)
    | TrainingFrom(step: nat)
    | Backward(syncSkipped: bool)
    | Logged(step: nat, loss: AvgLoss, infOrNanCount: nat)
    | ClipGradients
    | OptimizerStep
    | ZeroGrad
    | SchedulerStep
    | EvaluationStarted(step: nat)
    | FinalEvaluation

  /** What one micro-batch's loss contributes: its value and whether it is NaN or infinite. */
  datatype Loss = Loss(value: real, nonFinite: bool)

  /**
   * The loop's counters: the index `batch_idx` the next micro-batch gets, `gradient_step`,
   * and the three interval accumulators.
   */
  datatype Counters = Counters(batchIdx: nat, gradientStep: nat, intervalLoss: real,
                               intervalSteps: nat, intervalInfOrNan: nat)

  /** Number of occurrences of an event. */
  function Count(es: seq<Event>, e: Event): nat
  {
    multiset(es)[e]
  }

  lemma CountAbsent(es: seq<Event>, e: Event)
    requires e !in es
    ensures Count(es, e) == 0
  {
  }

  lemma CountJoin(a: seq<Event>, b: seq<Event>, c: seq<Event>, e: Event)
    ensures Count(a + b + c, e) == Count(a, e) + Count(b, e) + Count(c, e)
  {
    assert multiset(a + b + c) == multiset(a) + multiset(b) + multiset(c);
  }

  /** `loss_sum / steps`, or infinity when the interval saw no finite loss. */
  function Average(sum: real, steps: nat): (r: AvgLoss)
    ensures r.Finite? <==> steps > 0
    ensures r.Finite? ==> r.value * (steps as real) == sum
  {
    if steps > 0 then Finite(sum / (steps as real)) else Infinity
  }

  /**
   * `n % k == 0`, by repeated subtraction. The schedule functions use this form because it keeps
   * their proofs linear; `MultipleMod` shows it agrees with the source's `%` test.
   */
  predicate Multiple(n: nat, k: nat)
    requires k > 0
    decreases n
  {
    if n < k then n == 0 else Multiple(n - k, k)
  }

  lemma {:induction false} MultipleMod(n: nat, k: nat)
    requires k > 0
    ensures Multiple(n, k) <==> n % k == 0
    decreases n
  {
    if n < k {
      DivModUnique(n, k, 0, n);
    } else {
      MultipleMod(n - k, k);
      SubMod(n, k);
    }
  }

  /** Taking `k` off leaves the remainder modulo `k` unchanged. */
  lemma SubMod(n: nat, k: nat)
    requires k > 0 && n >= k
    ensures (n - k) % k == n % k
  {
    var q := (n - k) / k;
    var m := (n - k) % k;
    assert n - k == q * k + m;
    assert (q + 1) * k == q * k + k;
    DivModUnique(n, k, q + 1, m);
  }

  /** `should_accumulate_gradients` for the micro-batch with index `batchIdx`. */
  predicate Accumulating(p: Params, batchIdx: nat)
    requires ValidParams(p)
  {
    !Multiple(batchIdx + 1, p.accumulationSteps)
  }

  /** The interval accumulators after one more micro-batch; `batch_idx` moves on. */
  function Tally(c: Counters, l: Loss): Counters
  {
    if l.nonFinite then c.(batchIdx := c.batchIdx + 1, intervalInfOrNan := c.intervalInfOrNan + 1)
    else c.(batchIdx := c.batchIdx + 1, intervalLoss := c.intervalLoss + l.value,
            intervalSteps := c.intervalSteps + 1)
  }

  /** Micro-batches counted in the current interval, finite or not. */
  function Pending(c: Counters): nat
  {
    c.intervalSteps + c.intervalInfOrNan
  }

  const OptimizerEvents: seq<Event> := [ClipGradients, OptimizerStep, ZeroGrad, SchedulerStep]

  /** The logging block: fires when the pre-increment `gradient_step` is a multiple of the interval. */
  function LogEvents(p: Params, t: Counters): seq<Event>
    requires ValidParams(p)
  {
    if Multiple(t.gradientStep, p.logEvery)
    then [Logged(t.gradientStep, Average(t.intervalLoss, t.intervalSteps), t.intervalInfOrNan)]
    else []
  }

  /** The counters after the logging block: the accumulators restart when it fires. */
  function LogReset(p: Params, t: Counters): Counters
    requires ValidParams(p)
  {
    if Multiple(t.gradientStep, p.logEvery)
    then t.(intervalLoss := 0.0, intervalSteps := 0, intervalInfOrNan := 0)
    else t
  }

  /** The counters after the logging block and the increment of `gradient_step`. */
  function StepCounters(p: Params, t: Counters): Counters
    requires ValidParams(p)
  {
    LogReset(p, t).(gradientStep := t.gradientStep + 1)
  }

  /** Periodic checkpoint, evaluation notice and the final checkpoint, for the new step `next`. */
  function StepTail(p: Params, next: nat): seq<Event>
    requires ValidParams(p)
  {
    (if Multiple(next, p.saveEvery) then [SavedCheckpoint(next)] else [])
    + (if Multiple(next, p.evalEvery) then [EvaluationStarted(next)] else [])
    + (if next == p.trainingSteps && !Multiple(next, p.saveEvery) then [SavedCheckpoint(next)] else [])
  }

  datatype StepResult = StepResult(counters: Counters, events: seq<Event>, stop: bool)

  /** The part of the loop body after the `continue`, from the tallied counters. */
  function Optimize(p: Params, t: Counters): StepResult
    requires ValidParams(p)
  {
    StepResult(StepCounters(p, t),
               LogEvents(p, t) + OptimizerEvents + StepTail(p, t.gradientStep + 1),
               t.gradientStep + 1 == p.trainingSteps)
  }

  /** The body of the training loop for one micro-batch; `stop` is the `break`. */
  function MicroStep(p: Params, c: Counters, l: Loss): StepResult
    requires ValidParams(p)
  {
    var t := Tally(c, l);
    if Accumulating(p, c.batchIdx) then StepResult(t, [Backward(true)], false)
    else
      var o := Optimize(p, t);
      StepResult(o.counters, [Backward(false)] + o.events, o.stop)
  }

  lemma LogEventsAreLogs(p: Params, t: Counters)
    requires ValidParams(p)
    ensures forall e :: e in LogEvents(p, t) ==> e.Logged?
  {
  }

  lemma StepTailKinds(p: Params, next: nat)
    requires ValidParams(p)
    ensures forall e :: e in StepTail(p, next) ==> e.SavedCheckpoint? || e.EvaluationStarted?
  {
  }

  /** The events of a micro-batch that closes an accumulation window, piece by piece. */
  lemma StepShape(p: Params, c: Counters, l: Loss)
    requires ValidParams(p) && !Accumulating(p, c.batchIdx)
    ensures Tally(c, l).gradientStep == c.gradientStep
    ensures MicroStep(p, c, l).events == WindowEvents(p, Tally(c, l), c.gradientStep + 1)
  {
  }

  lemma OptimizerEventOnce(pre: seq<Event>, tail: seq<Event>, e: Event)
    requires e in OptimizerEvents && e !in pre && e !in tail
    ensures Count(pre + OptimizerEvents + tail, e) == 1
  {
    CountJoin(pre, OptimizerEvents, tail, e);
    CountAbsent(pre, e);
    CountAbsent(tail, e);
  }

  /** A micro-batch that closes an accumulation window runs the backward pass with sync and then the optimizer part. */
  lemma ClosingStep(p: Params, c: Counters, l: Loss)
    requires ValidParams(p) && !Accumulating(p, c.batchIdx)
    ensures var o := Optimize(p, Tally(c, l));
      MicroStep(p, c, l) == StepResult(o.counters, [Backward(false)] + o.events, o.stop)
  {
  }

  /** The events of a window-closing micro-batch: one backward pass, logging, the optimizer calls, the tail. */
  function WindowEvents(p: Params, t: Counters, next: nat): seq<Event>
    requires ValidParams(p)
  {
    [Backward(false)] + LogEvents(p, t) + OptimizerEvents + StepTail(p, next)
  }

  /** A window-closing micro-batch calls each optimizer operation once. */
  lemma WindowOptimizerOnce(p: Params, t: Counters, next: nat, e: Event)
    requires ValidParams(p) && e in OptimizerEvents
    ensures Count(WindowEvents(p, t, next), e) == 1
  {
    LogEventsAreLogs(p, t);
    StepTailKinds(p, next);
    OptimizerEventOnce([Backward(false)] + LogEvents(p, t), StepTail(p, next), e);
  }

  /**
   * The optimizer events happen exactly once on the micro-batches whose `batch_idx + 1` is a
   * multiple of the accumulation steps, and never on the others.
   */
  lemma AccumulationGating(p: Params, c: Counters, l: Loss)
    requires ValidParams(p)
    ensures forall e :: e in OptimizerEvents ==>
      Count(MicroStep(p, c, l).events, e) == if (c.batchIdx + 1) % p.accumulationSteps == 0 then 1 else 0
  {
    MultipleMod(c.batchIdx + 1, p.accumulationSteps);
    forall e | e in OptimizerEvents
      ensures Count(MicroStep(p, c, l).events, e) == if (c.batchIdx + 1) % p.accumulationSteps == 0 then 1 else 0
    {
      if Accumulating(p, c.batchIdx) {
        CountAbsent([Backward(true)], e);
      } else {
        StepShape(p, c, l);
        WindowOptimizerOnce(p, Tally(c, l), c.gradientStep + 1, e);
      }
    }
  }

  /**
   * Every micro-batch moves `batch_idx` on by one; one that closes an accumulation window adds
   * one to `gradient_step`, and the others only run a backward pass with gradient sync skipped.
   */
  lemma StepCounting(p: Params, c: Counters, l: Loss)
    requires ValidParams(p)
    ensures var r := MicroStep(p, c, l);
      && r.counters.batchIdx == c.batchIdx + 1
      && r.counters.gradientStep == c.gradientStep + (if Accumulating(p, c.batchIdx) then 0 else 1)
      && (Accumulating(p, c.batchIdx) ==> r.events == [Backward(true)] && !r.stop)
  {
  }

  /** Logging fires on an optimizer step whose pre-increment `gradient_step` is a multiple of the log interval. */
  predicate LogsNow(p: Params, c: Counters)
    requires ValidParams(p)
  {
    !Accumulating(p, c.batchIdx) && c.gradientStep % p.logEvery == 0
  }

  /**
   * Each micro-batch adds to exactly one of `interval_steps` (with its loss) and
   * `interval_inf_or_nan_count`; a logging step reports the interval including this
   * micro-batch at the pre-increment step and leaves all three accumulators at zero.
   */
  lemma IntervalAccounting(p: Params, c: Counters, l: Loss)
    requires ValidParams(p)
    ensures var r := MicroStep(p, c, l);
      var t := Tally(c, l);
      && (l.nonFinite ==> t.intervalInfOrNan == c.intervalInfOrNan + 1 && t.intervalSteps == c.intervalSteps
                          && t.intervalLoss == c.intervalLoss)
      && (!l.nonFinite ==> t.intervalSteps == c.intervalSteps + 1 && t.intervalInfOrNan == c.intervalInfOrNan
                           && t.intervalLoss == c.intervalLoss + l.value)
      && (!LogsNow(p, c) ==> Pending(r.counters) == Pending(c) + 1 && r.counters.intervalLoss == t.intervalLoss
                             && forall e :: e in r.events ==> !e.Logged?)
      && (LogsNow(p, c) ==> Pending(r.counters) == 0 && r.counters.intervalLoss == 0.0
                            && Logged(c.gradientStep, Average(t.intervalLoss, t.intervalSteps), t.intervalInfOrNan) in r.events)
  {
    MultipleMod(c.gradientStep, p.logEvery);
    StepTailKinds(p, c.gradientStep + 1);
    LogEventsAreLogs(p, Tally(c, l));
  }

  /** Whether any checkpoint rule saves step `k` once `gradient_step` has become `k`. */
  predicate SavesAt(p: Params, k: nat)
    requires ValidParams(p)
  {
    k % p.saveEvery == 0 || k == p.trainingSteps
  }

  lemma StepTailSaves(p: Params, next: nat, k: nat)
    requires ValidParams(p)
    ensures Count(StepTail(p, next), SavedCheckpoint(k)) == if k == next && SavesAt(p, k) then 1 else 0
  {
    MultipleMod(next, p.saveEvery);
    MultipleMod(k, p.saveEvery);
    var a := if Multiple(next, p.saveEvery) then [SavedCheckpoint(next)] else [];
    var b := if Multiple(next, p.evalEvery) then [EvaluationStarted(next)] else [];
    var f := if next == p.trainingSteps && !Multiple(next, p.saveEvery) then [SavedCheckpoint(next)] else [];
    assert StepTail(p, next) == a + b + f;
    assert multiset(a + b + f) == multiset(a) + multiset(b) + multiset(f);
  }

  /** A window-closing micro-batch saves step `k` once if its tail does, and otherwise never. */
  lemma WindowSaves(p: Params, t: Counters, next: nat, k: nat)
    requires ValidParams(p)
    ensures Count(WindowEvents(p, t, next), SavedCheckpoint(k)) == if k == next && SavesAt(p, k) then 1 else 0
  {
    var e := SavedCheckpoint(k);
    var pre := [Backward(false)] + LogEvents(p, t);
    LogEventsAreLogs(p, t);
    StepTailSaves(p, next, k);
    CountJoin(pre, OptimizerEvents, StepTail(p, next), e);
    CountAbsent(pre, e);
    CountAbsent(OptimizerEvents, e);
  }

  /**
   * A checkpoint of step `k` is saved in a micro-batch exactly when it performs the optimizer
   * step reaching `k` and `k` is a multiple of the save interval or the last training step,
   * and then exactly once.
   */
  lemma CheckpointRule(p: Params, c: Counters, l: Loss, k: nat)
    requires ValidParams(p)
    ensures Count(MicroStep(p, c, l).events, SavedCheckpoint(k)) ==
      if !Accumulating(p, c.batchIdx) && k == c.gradientStep + 1 && SavesAt(p, k) then 1 else 0
  {
    if Accumulating(p, c.batchIdx) {
      CountAbsent([Backward(true)], SavedCheckpoint(k));
    } else {
      StepShape(p, c, l);
      WindowSaves(p, Tally(c, l), c.gradientStep + 1, k);
    }
  }

  /** The loop breaks exactly after the optimizer step that reaches `training_steps`. */
  lemma StopRule(p: Params, c: Counters, l: Loss)
    requires ValidParams(p)
    ensures MicroStep(p, c, l).stop <==>
      !Accumulating(p, c.batchIdx) && c.gradientStep + 1 == p.trainingSteps
    ensures MicroStep(p, c, l).stop ==> MicroStep(p, c, l).counters.gradientStep == p.trainingSteps
  {
  }

  datatype RunResult = RunResult(counters: Counters, events: seq<Event>, consumed: nat, stopped: bool)

  /** The `for` loop over the micro-batches: it ends at the `break` or when the data runs out. */
  function Run(p: Params, c: Counters, losses: seq<Loss>): RunResult
    requires ValidParams(p)
    decreases |losses|
  {
    if |losses| == 0 then RunResult(c, [], 0, false)
    else
      var s := MicroStep(p, c, losses[0]);
      if s.stop then RunResult(s.counters, s.events, 1, true)
      else
        var rest := Run(p, s.counters, losses[1..]);
        RunResult(rest.counters, s.events + rest.events, rest.consumed + 1, rest.stopped)
  }

  /** How many of the micro-batch indices `a, a+1, ..., a+n-1` end an accumulation window. */
  function Boundaries(g: nat, a: nat, n: nat): nat
    requires g > 0
    decreases n
  {
    if n == 0 then 0 else (if (a + 1) % g == 0 then 1 else 0) + Boundaries(g, a + 1, n - 1)
  }

  /**
   * Over a run, `batch_idx` advances by the number of micro-batches consumed and
   * `gradient_step` by the number of accumulation windows they close; the run consumes every
   * micro-batch unless it breaks, and it breaks only at `training_steps`, on a window boundary.
   */
  lemma {:induction false} RunCounts(p: Params, c: Counters, losses: seq<Loss>)
    requires ValidParams(p)
    ensures var r := Run(p, c, losses);
      && r.consumed <= |losses|
      && r.counters.batchIdx == c.batchIdx + r.consumed
      && r.counters.gradientStep == c.gradientStep + Boundaries(p.accumulationSteps, c.batchIdx, r.consumed)
      && (!r.stopped ==> r.consumed == |losses|)
      && (r.stopped ==> r.consumed > 0 && r.counters.gradientStep == p.trainingSteps
                        && (c.batchIdx + r.consumed) % p.accumulationSteps == 0)
    decreases |losses|
  {
    if |losses| > 0 {
      var s := MicroStep(p, c, losses[0]);
      StepCounting(p, c, losses[0]);
      StopRule(p, c, losses[0]);
      MultipleMod(c.batchIdx + 1, p.accumulationSteps);
      if !s.stop {
        RunCounts(p, s.counters, losses[1..]);
      }
    }
  }

  /**
   * Started at or past `training_steps` (a resumed run), the loop never breaks: `gradient_step`
   * only grows, so the equality test never holds, and the run consumes every micro-batch.
   */
  lemma {:induction false} NoStopPastLimit(p: Params, c: Counters, losses: seq<Loss>)
    requires ValidParams(p)
    requires c.gradientStep >= p.trainingSteps
    ensures !Run(p, c, losses).stopped && Run(p, c, losses).consumed == |losses|
    decreases |losses|
  {
    if |losses| > 0 {
      var s := MicroStep(p, c, losses[0]);
      StepCounting(p, c, losses[0]);
      StopRule(p, c, losses[0]);
      NoStopPastLimit(p, s.counters, losses[1..]);
    }
  }

  /**
   * Over a whole run, the checkpoint of step `k` is saved exactly once if the run performs the
   * optimizer step reaching `k` and `k` is a multiple of the save interval or equals
   * `training_steps`, and otherwise never.
   */
  lemma {:induction false} CheckpointsOnce(p: Params, c: Counters, losses: seq<Loss>, k: nat)
    requires ValidParams(p)
    ensures var r := Run(p, c, losses);
      Count(r.events, SavedCheckpoint(k)) ==
        if c.gradientStep < k <= r.counters.gradientStep && SavesAt(p, k) then 1 else 0
    decreases |losses|
  {
    if |losses| > 0 {
      var s := MicroStep(p, c, losses[0]);
      CheckpointRule(p, c, losses[0], k);
      StepCounting(p, c, losses[0]);
      if !s.stop {
        var rest := Run(p, s.counters, losses[1..]);
        CheckpointsOnce(p, s.counters, losses[1..], k);
        RunCounts(p, s.counters, losses[1..]);
        StopRule(p, c, losses[0]);
        assert multiset(s.events + rest.events) == multiset(s.events) + multiset(rest.events);
      }
    }
  }

  /** `(a - b) * g` for `a > b` is at least `g`. */
  lemma MulGap(a: int, b: int, g: int)
    requires g > 0
    ensures a > b ==> a * g >= b * g + g
  {
    if a > b {
      var d := a - b - 1;
      assert a * g == b * g + g + d * g;
      assert d * g >= 0;
    }
  }

  lemma DivModUnique(n: nat, g: nat, q: nat, m: nat)
    requires g > 0 && n == q * g + m && m < g
    ensures n / g == q && n % g == m
  {
    var q' := n / g;
    var m' := n % g;
    assert n == q' * g + m';
    MulGap(q, q', g);
    MulGap(q', q, g);
  }

  lemma {:induction false} BoundariesSnoc(g: nat, a: nat, n: nat)
    requires g > 0
    ensures Boundaries(g, a, n + 1) == Boundaries(g, a, n) + (if (a + n + 1) % g == 0 then 1 else 0)
    decreases n
  {
    if n > 0 {
      BoundariesSnoc(g, a + 1, n - 1);
    }
  }

  /** From index 0, `n` micro-batches close `n / G` accumulation windows. */
  lemma {:induction false} BoundariesFromZero(g: nat, n: nat)
    requires g > 0
    ensures Boundaries(g, 0, n) == n / g
    decreases n
  {
    if n > 0 {
      BoundariesFromZero(g, n - 1);
      BoundariesSnoc(g, 0, n - 1);
      DivSucc(n - 1, g);
    }
  }

  /** The quotient by `g` goes up by one exactly at the multiples of `g`. */
  lemma DivSucc(n: nat, g: nat)
    requires g > 0
    ensures (n + 1) / g == n / g + (if (n + 1) % g == 0 then 1 else 0)
  {
    var q := n / g;
    var m := n % g;
    DivModUnique(n, g, q, m);
    if m + 1 < g {
      DivModUnique(n + 1, g, q, m + 1);
    } else {
      assert n + 1 == q * g + g;
      assert q * g + g == (q + 1) * g;
      DivModUnique(n + 1, g, q + 1, 0);
    }
  }

  datatype Start = Start(counters: Counters, events: seq<Event>)

  /**
   * Lines before the loop: a loaded checkpoint supplies `train_start_step`; otherwise it is 0
   * and the config and a step-0 checkpoint are saved first. `gradient_step` and the
   * enumeration of `batch_idx` both start at `train_start_step`.
   */
  function Begin(p: Params, loadedStep: Option<nat>): (r: Start)
    ensures var start := if loadedStep.Some? then loadedStep.value else 0;
      && r.counters == Counters(start, start, 0.0, 0, 0)
      && (loadedStep.None? <==> |r.events| >= 2 && r.events[..2] == [SavedConfig, SavedCheckpoint(0)])
      && (TrainingFrom(start) in r.events <==> start < p.trainingSteps)
  {
    var start := if loadedStep.Some? then loadedStep.value else 0;
    var saved := if loadedStep.None? then [SavedConfig, SavedCheckpoint(0)] else [];
    var from := if start < p.trainingSteps then [TrainingFrom(start)] else [];
    Start(Counters(start, start, 0.0, 0, 0), saved + from)
  }

  /** The whole of `main` from checkpoint loading to the final evaluation. */
  function Train(p: Params, loadedStep: Option<nat>, losses: seq<Loss>): seq<Event>
    requires ValidParams(p)
  {
    var b := Begin(p, loadedStep);
    b.events + Run(p, b.counters, losses).events + [FinalEvaluation]
  }

  lemma MulBelow(q: nat, t: nat, g: nat)
    requires q < t && g > 0
    ensures q * g + g <= t * g
  {
    MulGap(t, q, g);
  }

  /**
   * Below `training_steps`, a run whose micro-batches close enough accumulation windows to
   * reach `training_steps` breaks.
   */
  lemma {:induction false} ReachesLimit(p: Params, c: Counters, losses: seq<Loss>)
    requires ValidParams(p)
    requires c.gradientStep < p.trainingSteps
    requires c.gradientStep + Boundaries(p.accumulationSteps, c.batchIdx, |losses|) >= p.trainingSteps
    ensures Run(p, c, losses).stopped
    decreases |losses|
  {
    var s := MicroStep(p, c, losses[0]);
    StepCounting(p, c, losses[0]);
    StopRule(p, c, losses[0]);
    MultipleMod(c.batchIdx + 1, p.accumulationSteps);
    if !s.stop {
      ReachesLimit(p, s.counters, losses[1..]);
    }
  }

  /** `n >= t * g` gives `n / g >= t`. */
  lemma DivAtLeast(n: nat, t: nat, g: nat)
    requires g > 0 && n >= t * g
    ensures n / g >= t
  {
    DivModUnique(n, g, n / g, n % g);
    MulGap(t, n / g, g);
  }

  /** A fresh run that does not break performs `n / G` gradient steps over its `n` micro-batches. */
  lemma FreshRunSteps(p: Params, losses: seq<Loss>)
    requires ValidParams(p)
    ensures var r := Run(p, Begin(p, None).counters, losses);
      !r.stopped ==> r.counters.gradientStep == |losses| / p.accumulationSteps
  {
    var c := Begin(p, None).counters;
    RunCounts(p, c, losses);
    BoundariesFromZero(p.accumulationSteps, Run(p, c, losses).consumed);
  }

  /**
   * A fresh run over at least `training_steps * G` micro-batches breaks after exactly that
   * many, at `gradient_step == training_steps`.
   */
  lemma FreshRunStops(p: Params, losses: seq<Loss>)
    requires ValidParams(p) && p.trainingSteps > 0
    requires |losses| >= p.trainingSteps * p.accumulationSteps
    ensures var r := Run(p, Begin(p, None).counters, losses);
      && r.stopped && r.counters.gradientStep == p.trainingSteps
      && r.consumed == p.trainingSteps * p.accumulationSteps
  {
    var c := Begin(p, None).counters;
    var g := p.accumulationSteps;
    assert c.batchIdx == 0 && c.gradientStep == 0;
    assert Boundaries(g, 0, |losses|) >= p.trainingSteps by {
      BoundariesFromZero(g, |losses|);
      DivAtLeast(|losses|, p.trainingSteps, g);
    }
    ReachesLimit(p, c, losses);
    var r := Run(p, c, losses);
    RunCounts(p, c, losses);
    var n := r.consumed;
    assert n / g == p.trainingSteps && n % g == 0 by {
      BoundariesFromZero(g, n);
    }
    DivExact(n, g);
  }

  /** A multiple of `g` is `g` times its quotient. */
  lemma DivExact(n: nat, g: nat)
    requires g > 0 && n % g == 0
    ensures n == (n / g) * g
  {
  }

  /**
   * The loop's state as an object: the counters the loop body updates in place and the
   * sequence of abstract calls made so far.
   */
  class Trainer {
    const params: Params
    var batchIdx: nat
    var gradientStep: nat
    var intervalLoss: real
    var intervalSteps: nat
    var intervalInfOrNan: nat
    var events: seq<Event>

    function State(): Counters
      reads this
    {
      Counters(batchIdx, gradientStep, intervalLoss, intervalSteps, intervalInfOrNan)
    }

    /** Checkpoint loading or the fresh-run saves, then the counters' initial values. */
    constructor (p: Params, loadedStep: Option<nat>)
      ensures params == p
      ensures State() == Begin(p, loadedStep).counters && events == Begin(p, loadedStep).events
    {
      params := p;
      var start: nat;
      if loadedStep.Some? {
        start := loadedStep.value;
        events := [];
      } else {
        start := 0;
        events := [SavedConfig, SavedCheckpoint(0)];
      }
      if start < p.trainingSteps {
        events := events + [TrainingFrom(start)];
      }
      batchIdx := start;
      gradientStep := start;
      intervalLoss := 0.0;
      intervalSteps := 0;
      intervalInfOrNan := 0;
    }

    /** The loss bookkeeping inside `no_backward_sync`, and the enumeration moving on. */
    method TallyLoss(l: Loss)
      modifies this
      ensures State() == Tally(old(State()), l) && events == old(events)
    {
      if l.nonFinite {
        intervalInfOrNan := intervalInfOrNan + 1;
      } else {
        intervalLoss := intervalLoss + l.value;
        intervalSteps := intervalSteps + 1;
      }
      batchIdx := batchIdx + 1;
    }

    /** The logging block: report the interval and restart the accumulators. */
    method LogBlock()
      requires ValidParams(params)
      modifies this
      ensures State() == LogReset(params, old(State()))
      ensures events == old(events) + LogEvents(params, old(State()))
    {
      MultipleMod(gradientStep, params.logEvery);
      if gradientStep % params.logEvery == 0 {
        var avg := if intervalSteps > 0 then Finite(intervalLoss / (intervalSteps as real)) else Infinity;
        events := events + [Logged(gradientStep, avg, intervalInfOrNan)];
        intervalLoss := 0.0;
        intervalSteps := 0;
        intervalInfOrNan := 0;
      }
    }

    /** The checkpoint, evaluation and break tests after `gradient_step += 1`. */
    method TailBlock() returns (stop: bool)
      requires ValidParams(params)
      modifies this
      ensures State() == old(State())
      ensures events == old(events) + StepTail(params, gradientStep)
      ensures stop == (gradientStep == params.trainingSteps)
    {
      MultipleMod(gradientStep, params.saveEvery);
      MultipleMod(gradientStep, params.evalEvery);
      var saved: seq<Event> := [];
      if gradientStep % params.saveEvery == 0 {
        saved := [SavedCheckpoint(gradientStep)];
      }
      var evaluated: seq<Event> := [];
      if gradientStep % params.evalEvery == 0 {
        evaluated := [EvaluationStarted(gradientStep)];
      }
      var final: seq<Event> := [];
      stop := false;
      if gradientStep == params.trainingSteps {
        if gradientStep % params.saveEvery != 0 {
          final := [SavedCheckpoint(gradientStep)];
        }
        stop := true;
      }
      events := events + (saved + evaluated + final);
    }

    /** The logging block, the optimizer step and the checkpoint and stop tests. */
    method Step() returns (stop: bool)
      requires ValidParams(params)
      modifies this
      ensures var o := Optimize(params, old(State()));
        State() == o.counters && events == old(events) + o.events && stop == o.stop
    {
      ghost var t := State();
      ghost var e0 := events;
      LogBlock();
      events := events + OptimizerEvents;
      gradientStep := gradientStep + 1;
      stop := TailBlock();
      assert events == e0 + (LogEvents(params, t) + OptimizerEvents + StepTail(params, t.gradientStep + 1));
    }

    /** One pass of the loop body; the result says whether it reached the `break`. */
    method MicroBatch(l: Loss) returns (stop: bool)
      requires ValidParams(params)
      modifies this
      ensures var s := MicroStep(params, old(State()), l);
        State() == s.counters && events == old(events) + s.events && stop == s.stop
    {
      MultipleMod(batchIdx + 1, params.accumulationSteps);
      if (batchIdx + 1) % params.accumulationSteps != 0 {
        Accumulate(l);
        stop := false;
      } else {
        ghost var c := State();
        stop := CloseWindow(l);
        ClosingStep(params, c, l);
      }
    }

    /** The loop body for a micro-batch inside an accumulation window: it ends at the `continue`. */
    method Accumulate(l: Loss)
      requires ValidParams(params) && Accumulating(params, batchIdx)
      modifies this
      ensures var s := MicroStep(params, old(State()), l);
        State() == s.counters && events == old(events) + s.events && !s.stop
    {
      events := events + [Backward(true)];
      TallyLoss(l);
    }

    /** The loop body for the micro-batch that closes an accumulation window. */
    method CloseWindow(l: Loss) returns (stop: bool)
      requires ValidParams(params) && !Accumulating(params, batchIdx)
      modifies this
      ensures var o := Optimize(params, Tally(old(State()), l));
        State() == o.counters && events == old(events) + ([Backward(false)] + o.events) && stop == o.stop
    {
      ghost var e0 := events;
      events := events + [Backward(false)];
      TallyLoss(l);
      ghost var e1 := events;
      stop := Step();
      assert events == e1 + (events[|e1|..]);
      assert e1 == e0 + [Backward(false)];
    }

    /** One turn of the `for` loop, described by the run it leaves to do. */
    method Turn(ghost whole: RunResult, losses: seq<Loss>, i: nat, ghost done: seq<Event>)
      returns (stop: bool, ghost mine: seq<Event>)
      requires ValidParams(params) && i < |losses|
      requires whole == After(done, i, Run(params, State(), losses[i..]))
      modifies this
      ensures events == old(events) + mine
      ensures !stop ==> whole == After(done + mine, i + 1, Run(params, State(), losses[i + 1..]))
      ensures stop ==> whole == RunResult(State(), done + mine, i + 1, true)
    {
      ghost var from := State();
      stop := MicroBatch(losses[i]);
      mine := events[|old(events)|..];
      LoopStep(params, whole, losses, i, done, from);
    }

    /** The `for` loop over the micro-batches, then the final evaluation. */
    method Train(losses: seq<Loss>)
      requires ValidParams(params)
      modifies this
      ensures var r := Run(params, old(State()), losses);
        State() == r.counters && events == old(events) + r.events + [FinalEvaluation]
    {
      ghost var whole := Run(params, State(), losses);
      Loop(whole, losses);
      events := events + [FinalEvaluation];
    }

    /** The `for` loop itself: it ends at the `break` or when the micro-batches run out. */
    method Loop(ghost whole: RunResult, losses: seq<Loss>)
      requires ValidParams(params)
      requires whole == Run(params, State(), losses)
      modifies this
      ensures State() == whole.counters && events == old(events) + whole.events
    {
      ghost var done: seq<Event> := [];
      RunStart(params, State(), losses);
      var i := 0;
      while i < |losses|
        invariant 0 <= i <= |losses|
        invariant events == old(events) + done
        invariant whole == After(done, i, Run(params, State(), losses[i..]))
        decreases |losses| - i
      {
        var stop, mine := Turn(whole, losses, i, done);
        done := done + mine;
        if stop {
          return;
        }
        i := i + 1;
      }
      RunDone(params, State(), losses[i..], done, i);
    }
  }

  /** Before the first micro-batch the whole run is still to come. */
  lemma RunStart(p: Params, c: Counters, losses: seq<Loss>)
    requires ValidParams(p)
    ensures Run(p, c, losses) == After([], 0, Run(p, c, losses[0..]))
  {
    assert losses[0..] == losses;
    assert [] + Run(p, c, losses).events == Run(p, c, losses).events;
  }

  /** A run preceded by `n` micro-batches that produced `done` without breaking. */
  ghost function After(done: seq<Event>, n: nat, r: RunResult): RunResult
  {
    RunResult(r.counters, done + r.events, r.consumed + n, r.stopped)
  }

  /** With no micro-batch left, the run is what the loop has already done. */
  lemma RunDone(p: Params, c: Counters, rest: seq<Loss>, done: seq<Event>, n: nat)
    requires ValidParams(p) && |rest| == 0
    ensures After(done, n, Run(p, c, rest)) == RunResult(c, done, n, false)
  {
    assert done + [] == done;
  }

  lemma RunUnfold(p: Params, c: Counters, losses: seq<Loss>)
    requires ValidParams(p) && |losses| > 0
    ensures var s := MicroStep(p, c, losses[0]);
      Run(p, c, losses) == if s.stop then RunResult(s.counters, s.events, 1, true)
                           else After(s.events, 1, Run(p, s.counters, losses[1..]))
  {
  }

  /** One turn of the `for` loop, in terms of the run still to come. */
  lemma LoopStep(p: Params, whole: RunResult, losses: seq<Loss>, i: nat, done: seq<Event>, from: Counters)
    requires ValidParams(p) && i < |losses|
    requires whole == After(done, i, Run(p, from, losses[i..]))
    ensures var s := MicroStep(p, from, losses[i]);
      && (!s.stop ==> whole == After(done + s.events, i + 1, Run(p, s.counters, losses[i + 1..])))
      && (s.stop ==> whole == RunResult(s.counters, done + s.events, i + 1, true))
  {
    var s := MicroStep(p, from, losses[i]);
    RunUnfold(p, from, losses[i..]);
    assert losses[i..][1..] == losses[i + 1..];
    if !s.stop {
      AfterAfter(done, i, s.events, Run(p, s.counters, losses[i + 1..]));
    }
  }

  lemma AfterAfter(done: seq<Event>, n: nat, mine: seq<Event>, r: RunResult)
    ensures After(done, n, After(mine, 1, r)) == After(done + mine, n + 1, r)
  {
    assert done + (mine + r.events) == (done + mine) + r.events;
  }
}
