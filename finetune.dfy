/** The early-stopping fine-tune loop, `finetune`. The gradient update and
    the accuracy evaluations are opaque functions: `update(params, step)` is
    one optimiser step with the training batch and learning rate of that
    step, `trainAccuracy` and `valAccuracy` are `get_accuracy` on the
    training-subset and validation streams. */
module Finetune {
  import opened Common

  /** Evaluations happen every `EvalEvery` steps. */
  const EvalEvery: nat := 5

  /** One logged `(step, accuracy)` pair. */
  datatype Eval = Eval(step: nat, accuracy: real)

  /** The best validation accuracy seen and the step it was seen at. */
  datatype Best = Best(accuracy: real, step: nat)

  /** The `info` dictionary `finetune` returns. */
  datatype Info = Info(bestValAccuracy: real, bestStep: nat, trainAccuracies: seq<Eval>, valAccuracies: seq<Eval>)

  /** The parameters after the updates of steps 1 .. n. */
  function ParamsAfter<P>(params0: P, update: (P, nat) -> P, n: nat): P {
    if n == 0 then params0 else update(ParamsAfter(params0, update, n - 1), n)
  }

  /** The running best after the given evaluations, starting from
      `best_opt_accuracy = -1`, `best_step = 1`; an evaluation at least as
      good as the best so far replaces it. */
  function Track(vals: seq<Eval>): (r: Best)
    ensures r.accuracy >= -1.0
  {
    if vals == [] then Best(-1.0, 1)
    else
      var before := Track(vals[..|vals| - 1]);
      var last := vals[|vals| - 1];
      if last.accuracy >= before.accuracy then Best(last.accuracy, last.step) else before
  }

  /** Evaluation i does not improve on the best before it and comes at least
      `patience` steps after that best: the loop breaks there. */
  predicate StopsAt(vals: seq<Eval>, i: nat, patience: int)
    requires i < |vals|
  {
    && vals[i].accuracy < Track(vals[..i]).accuracy
    && vals[i].step - Track(vals[..i]).step >= patience
  }

  /** Some evaluation reached -1, so the snapshot was assigned at least once. */
  predicate SnapshotTaken(vals: seq<Eval>) {
    exists i :: 0 <= i < |vals| && vals[i].accuracy >= -1.0
  }

  predicate StrictlyIncreasingSteps(vals: seq<Eval>) {
    forall i, j :: 0 <= i < j < |vals| ==> vals[i].step < vals[j].step
  }

  /** The running best is at least -1 and at least every recorded accuracy;
      it is a recorded evaluation whenever the snapshot was taken, and keeps
      its initial value otherwise. */
  lemma {:induction false} TrackIsMaximum(vals: seq<Eval>)
    ensures Track(vals).accuracy >= -1.0
    ensures forall i :: 0 <= i < |vals| ==> vals[i].accuracy <= Track(vals).accuracy
    ensures SnapshotTaken(vals) ==> exists i :: 0 <= i < |vals| && vals[i] == Eval(Track(vals).step, Track(vals).accuracy)
    ensures !SnapshotTaken(vals) ==> Track(vals) == Best(-1.0, 1)
  {
    if vals != [] {
      var init := vals[..|vals| - 1];
      TrackIsMaximum(init);
      assert forall i :: 0 <= i < |init| ==> vals[i] == init[i];
      if SnapshotTaken(init) {
        var i :| 0 <= i < |init| && init[i].accuracy >= -1.0;
        assert vals[i].accuracy >= -1.0;
      }
      if !SnapshotTaken(vals) {
        assert !SnapshotTaken(init) by {
          forall i | 0 <= i < |init| ensures init[i].accuracy < -1.0 {
            assert vals[i] == init[i];
          }
        }
      }
    }
  }

  /** Ties go to the newer evaluation: every evaluation logged after the
      best step is strictly worse than the best. */
  lemma {:induction false} TrackPrefersNewer(vals: seq<Eval>)
    requires StrictlyIncreasingSteps(vals)
    requires SnapshotTaken(vals)
    ensures forall i :: 0 <= i < |vals| && vals[i].step > Track(vals).step ==> vals[i].accuracy < Track(vals).accuracy
  {
    var n := |vals|;
    var init := vals[..n - 1];
    var last := vals[n - 1];
    TrackIsMaximum(vals);
    if last.accuracy < Track(init).accuracy {
      // the best is unchanged and the last evaluation is worse than it
      assert SnapshotTaken(init) by {
        TrackIsMaximum(init);
      }
      TrackPrefersNewer(init);
      forall i | 0 <= i < n && vals[i].step > Track(vals).step
        ensures vals[i].accuracy < Track(vals).accuracy
      {
        if i < n - 1 {
          assert vals[i] == init[i];
        }
      }
    }
  }

  /** What logging one more evaluation does to the running best and to the
      snapshot. */
  lemma AppendEvalBest(vals: seq<Eval>, e: Eval)
    ensures Track(vals + [e]) == if e.accuracy >= Track(vals).accuracy then Best(e.accuracy, e.step) else Track(vals)
    ensures SnapshotTaken(vals + [e]) <==> SnapshotTaken(vals) || e.accuracy >= Track(vals).accuracy
  {
    var ext := vals + [e];
    assert ext[..|vals|] == vals;
    TrackIsMaximum(vals);
    if e.accuracy >= -1.0 {
      assert ext[|vals|].accuracy >= -1.0;
    }
    if SnapshotTaken(vals) {
      var i :| 0 <= i < |vals| && vals[i].accuracy >= -1.0;
      assert ext[i].accuracy >= -1.0;
    }
    if SnapshotTaken(ext) {
      var i :| 0 <= i < |ext| && ext[i].accuracy >= -1.0;
      if i < |vals| {
        assert vals[i].accuracy >= -1.0;
      }
    }
  }

  /** None of the first n evaluations meets the stopping condition. */
  predicate NoStopBefore(vals: seq<Eval>, n: nat, patience: int)
    requires n <= |vals|
  {
    forall i :: 0 <= i < n ==> !StopsAt(vals, i, patience)
  }

  /** Logging one more evaluation leaves the stopping condition of the
      earlier ones as it was. */
  lemma AppendEvalStops(vals: seq<Eval>, e: Eval, patience: int)
    requires NoStopBefore(vals, |vals|, patience)
    ensures NoStopBefore(vals + [e], |vals|, patience)
    ensures StopsAt(vals + [e], |vals|, patience) <==>
      e.accuracy < Track(vals).accuracy && e.step - Track(vals).step >= patience
  {
    var ext := vals + [e];
    assert ext[..|vals|] == vals && ext[|vals|] == e;
    forall i | 0 <= i < |vals| ensures !StopsAt(ext, i, patience) {
      assert ext[..i] == vals[..i] && ext[i] == vals[i];
      assert !StopsAt(vals, i, patience);
    }
  }

  /** Aligned logs are logged at strictly increasing steps. */
  lemma AlignedStepsIncrease<P>(params0: P, update: (P, nat) -> P, trainAccuracy: P -> real, valAccuracy: P -> real,
                                trainLog: seq<Eval>, valLog: seq<Eval>)
    requires EvalsAligned(params0, update, trainAccuracy, valAccuracy, trainLog, valLog)
    ensures StrictlyIncreasingSteps(valLog)
  {
    forall i, j | 0 <= i < j < |valLog| ensures valLog[i].step < valLog[j].step {
      assert valLog[i].step == EvalEvery * (i + 1) && valLog[j].step == EvalEvery * (j + 1);
    }
  }

  /** What the running best says about a log taken at increasing steps: it
      bounds every accuracy, and once a snapshot was taken it was logged and
      every later evaluation is strictly worse. */
  lemma BestOfLog(vals: seq<Eval>, accuracy: real, step: nat)
    requires StrictlyIncreasingSteps(vals) && Best(accuracy, step) == Track(vals)
    ensures forall i :: 0 <= i < |vals| ==> vals[i].accuracy <= accuracy
    ensures SnapshotTaken(vals) ==> exists i :: 0 <= i < |vals| && vals[i].step == step
    ensures SnapshotTaken(vals) ==> forall i :: 0 <= i < |vals| && vals[i].step > step ==> vals[i].accuracy < accuracy
  {
    TrackIsMaximum(vals);
    if SnapshotTaken(vals) {
      TrackPrefersNewer(vals);
      var i :| 0 <= i < |vals| && vals[i] == Eval(Track(vals).step, Track(vals).accuracy);
    }
  }

  /** A step between the n-th evaluation and the next one: n evaluations
      were due by it, and it is an evaluation step exactly when it is the
      n-th one. */
  lemma CadenceCount(step: nat, n: nat)
    requires EvalEvery * n <= step < EvalEvery * (n + 1)
    ensures step / EvalEvery == n
    ensures step % EvalEvery == 0 <==> step == EvalEvery * n
  {
  }

  /** The logs hold one aligned pair per evaluation, at steps 5, 10, 15, ...,
      each the accuracies of the parameters after that many steps. */
  ghost predicate EvalsAligned<P>(params0: P, update: (P, nat) -> P, trainAccuracy: P -> real, valAccuracy: P -> real,
                                  trainLog: seq<Eval>, valLog: seq<Eval>)
  {
    && |valLog| == |trainLog|
    && forall i :: 0 <= i < |valLog| ==>
      var step := EvalEvery * (i + 1);
      && valLog[i] == Eval(step, valAccuracy(ParamsAfter(params0, update, step)))
      && trainLog[i] == Eval(step, trainAccuracy(ParamsAfter(params0, update, step)))
  }

  /** Logging the evaluation due next keeps the logs aligned. */
  lemma AppendAligned<P>(params0: P, update: (P, nat) -> P, trainAccuracy: P -> real, valAccuracy: P -> real,
                         trainLog: seq<Eval>, valLog: seq<Eval>, step: nat)
    requires EvalsAligned(params0, update, trainAccuracy, valAccuracy, trainLog, valLog)
    requires step == EvalEvery * (|valLog| + 1)
    ensures EvalsAligned(params0, update, trainAccuracy, valAccuracy,
      trainLog + [Eval(step, trainAccuracy(ParamsAfter(params0, update, step)))],
      valLog + [Eval(step, valAccuracy(ParamsAfter(params0, update, step)))])
  {
  }

  /** The loop's record of its evaluations: aligned logs, the running best
      of the validation log, and the snapshot of the best step, present
      exactly when some evaluation assigned it. */
  ghost predicate Tracked<P>(params0: P, update: (P, nat) -> P, trainAccuracy: P -> real, valAccuracy: P -> real,
                             trainLog: seq<Eval>, valLog: seq<Eval>, bestAccuracy: real, bestStep: nat, best: Option<P>)
  {
    && EvalsAligned(params0, update, trainAccuracy, valAccuracy, trainLog, valLog)
    && Best(bestAccuracy, bestStep) == Track(valLog)
    && (best.Some? <==> SnapshotTaken(valLog))
    && (best.Some? ==> best.value == ParamsAfter(params0, update, bestStep))
  }

  /** Logging the evaluation due at `step`, with `params` the parameters
      after it: the snapshot moves to it when it is at least as good as the
      best, the record is kept either way, and it stops the loop exactly
      when it is worse and `patience` steps past the best. */
  lemma LogEvaluation<P>(params0: P, update: (P, nat) -> P, trainAccuracy: P -> real, valAccuracy: P -> real,
                         trainLog: seq<Eval>, valLog: seq<Eval>, bestAccuracy: real, bestStep: nat, best: Option<P>,
                         patience: int, step: nat, params: P, trainLog': seq<Eval>, valLog': seq<Eval>)
    requires Tracked(params0, update, trainAccuracy, valAccuracy, trainLog, valLog, bestAccuracy, bestStep, best)
    requires NoStopBefore(valLog, |valLog|, patience)
    requires step == EvalEvery * (|valLog| + 1) && params == ParamsAfter(params0, update, step)
    requires trainLog' == trainLog + [Eval(step, trainAccuracy(params))]
    requires valLog' == valLog + [Eval(step, valAccuracy(params))]
    ensures NoStopBefore(valLog', |valLog|, patience)
    ensures valAccuracy(params) >= bestAccuracy ==>
      Tracked(params0, update, trainAccuracy, valAccuracy, trainLog', valLog', valAccuracy(params), step, Some(params))
    ensures valAccuracy(params) < bestAccuracy ==>
      Tracked(params0, update, trainAccuracy, valAccuracy, trainLog', valLog', bestAccuracy, bestStep, best)
    ensures StopsAt(valLog', |valLog|, patience) <==> valAccuracy(params) < bestAccuracy && step - bestStep >= patience
  {
    var e := Eval(step, valAccuracy(params));
    AppendEvalBest(valLog, e);
    AppendEvalStops(valLog, e, patience);
    AppendAligned(params0, update, trainAccuracy, valAccuracy, trainLog, valLog, step);
  }

  /** Starting from -1, a first evaluation that reaches -1 (any accuracy,
      a fraction, does) becomes the best and the snapshot is taken. */
  lemma {:induction false} FirstEvalSetsBest(vals: seq<Eval>)
    requires |vals| >= 1 && vals[0].accuracy >= -1.0
    ensures Track(vals[..1]) == Best(vals[0].accuracy, vals[0].step)
    ensures SnapshotTaken(vals)
  {
    assert vals[..1][..0] == [];
  }

  /** The steps a run may take: the budget, or fewer when the training
      stream runs out first. */
  function StepLimit(totalSteps: nat, streamLength: nat): (n: nat)
    ensures n <= totalSteps && n <= streamLength
    ensures n == totalSteps || n == streamLength
  {
    if totalSteps <= streamLength then totalSteps else streamLength
  }

  /** The validation log of the first `n` evaluations, from the inputs alone. */
  function ValLog<P>(params0: P, update: (P, nat) -> P, valAccuracy: P -> real, n: nat): (vals: seq<Eval>)
    ensures |vals| == n
  {
    seq(n, i requires 0 <= i < n => Eval(EvalEvery * (i + 1), valAccuracy(ParamsAfter(params0, update, EvalEvery * (i + 1)))))
  }

  /** A run within `limit` steps makes exactly `n` evaluations: they fit in
      the limit, none before the last meets the stopping condition, and
      either the last one does or one more would not fit. */
  predicate RunsEvals<P>(params0: P, update: (P, nat) -> P, valAccuracy: P -> real, limit: nat, patience: int, n: nat) {
    var vals := ValLog(params0, update, valAccuracy, n);
    && EvalEvery * n <= limit
    && (n > 0 ==> NoStopBefore(vals, n - 1, patience))
    && (limit < EvalEvery * (n + 1) || (n > 0 && StopsAt(vals, n - 1, patience)))
  }

  /** The stopping condition of an evaluation depends only on the log up to it. */
  lemma StopsAtPrefix(vals: seq<Eval>, n: nat, i: nat, patience: int)
    requires i < n <= |vals|
    ensures StopsAt(vals[..n], i, patience) <==> StopsAt(vals, i, patience)
  {
    assert vals[..n][..i] == vals[..i];
  }

  /** A run of `m` evaluations rules out every smaller count. */
  lemma NoEarlierCount<P>(params0: P, update: (P, nat) -> P, valAccuracy: P -> real, limit: nat, patience: int,
                          n: nat, m: nat)
    requires n < m && RunsEvals(params0, update, valAccuracy, limit, patience, m)
    ensures !RunsEvals(params0, update, valAccuracy, limit, patience, n)
  {
    var long := ValLog(params0, update, valAccuracy, m);
    if n > 0 {
      assert ValLog(params0, update, valAccuracy, n) == long[..n];
      StopsAtPrefix(long, n, n - 1, patience);
      assert !StopsAt(long, n - 1, patience);
    }
  }

  /** The inputs fix the number of evaluations a run makes. */
  lemma EvalCountUnique<P>(params0: P, update: (P, nat) -> P, valAccuracy: P -> real, limit: nat, patience: int,
                           n: nat, m: nat)
    requires RunsEvals(params0, update, valAccuracy, limit, patience, n)
    requires RunsEvals(params0, update, valAccuracy, limit, patience, m)
    ensures n == m
  {
    if n < m {
      NoEarlierCount(params0, update, valAccuracy, limit, patience, n, m);
    } else if m < n {
      NoEarlierCount(params0, update, valAccuracy, limit, patience, m, n);
    }
  }

  /** A peak at step 5 with patience 2 stops at step 10, the next
      evaluation, with the step-5 snapshot as the best. */
  lemma PeakAtFiveStopsAtTen<P>(params0: P, update: (P, nat) -> P, valAccuracy: P -> real, limit: nat)
    requires limit >= 2 * EvalEvery
    requires valAccuracy(ParamsAfter(params0, update, 5)) >= -1.0
    requires valAccuracy(ParamsAfter(params0, update, 10)) < valAccuracy(ParamsAfter(params0, update, 5))
    ensures forall n :: RunsEvals(params0, update, valAccuracy, limit, 2, n) <==> n == 2
    ensures Track(ValLog(params0, update, valAccuracy, 2)) == Best(valAccuracy(ParamsAfter(params0, update, 5)), 5)
  {
    var vals := ValLog(params0, update, valAccuracy, 2);
    FirstEvalSetsBest(vals);
    assert vals[..0] == [];
    assert !StopsAt(vals, 0, 2);
    assert StopsAt(vals, 1, 2);
    assert RunsEvals(params0, update, valAccuracy, limit, 2, 2);
    forall n | RunsEvals(params0, update, valAccuracy, limit, 2, n) ensures n == 2 {
      EvalCountUnique(params0, update, valAccuracy, limit, 2, n, 2);
    }
    assert vals == vals[..2];
  }

  /** How the loop ended, restated through the inputs alone: the log is
      `ValLog` of its length, and that length is the run's evaluation count. */
  lemma EndOfRun<P>(params0: P, update: (P, nat) -> P, trainAccuracy: P -> real, valAccuracy: P -> real,
                    totalSteps: nat, streamLength: nat, patience: int,
                    trainLog: seq<Eval>, valLog: seq<Eval>, stepsTaken: nat, stoppedEarly: bool)
    requires stepsTaken <= totalSteps && stepsTaken <= streamLength
    requires !stoppedEarly ==> stepsTaken == totalSteps || stepsTaken == streamLength
    requires |valLog| == stepsTaken / EvalEvery
    requires EvalsAligned(params0, update, trainAccuracy, valAccuracy, trainLog, valLog)
    requires stoppedEarly ==> stepsTaken >= EvalEvery && StopsAt(valLog, |valLog| - 1, patience)
    requires NoStopBefore(valLog, |valLog| - (if stoppedEarly then 1 else 0), patience)
    ensures valLog == ValLog(params0, update, valAccuracy, |valLog|)
    ensures RunsEvals(params0, update, valAccuracy, StepLimit(totalSteps, streamLength), patience, |valLog|)
  {
    var n := |valLog|;
    assert valLog == ValLog(params0, update, valAccuracy, n);
    if !stoppedEarly {
      assert stepsTaken == StepLimit(totalSteps, streamLength);
    }
  }

  /** A step some evaluation was logged at is a positive multiple of the
      cadence within the steps run. */
  lemma EvalStepBounds(vals: seq<Eval>, s: nat, steps: nat)
    requires |vals| == steps / EvalEvery
    requires forall i :: 0 <= i < |vals| ==> vals[i].step == EvalEvery * (i + 1)
    requires exists i :: 0 <= i < |vals| && vals[i].step == s
    ensures s % EvalEvery == 0 && EvalEvery <= s <= steps
  {
    var i :| 0 <= i < |vals| && vals[i].step == s;
    assert s == EvalEvery * (i + 1);
  }

  /** The training loop of `finetune`, lines 367-390: one update per step,
      both accuracies logged every fifth step, the snapshot replaced by any
      evaluation at least as good as the best, and a break at a
      non-improving evaluation at least `patience` steps past the best. */
  method TrainLoop<P>(params0: P, update: (P, nat) -> P, trainAccuracy: P -> real, valAccuracy: P -> real,
                      totalSteps: nat, streamLength: nat, patience: int)
    returns (best: Option<P>, info: Info, stepsTaken: nat, stoppedEarly: bool)
    // cadence: one aligned pair per evaluation, at steps 5, 10, 15, ...
    ensures stepsTaken <= totalSteps && stepsTaken <= streamLength
    ensures !stoppedEarly ==> stepsTaken == totalSteps || stepsTaken == streamLength
    ensures |info.valAccuracies| == stepsTaken / EvalEvery
    ensures EvalsAligned(params0, update, trainAccuracy, valAccuracy, info.trainAccuracies, info.valAccuracies)
    // the best snapshot
    ensures Best(info.bestValAccuracy, info.bestStep) == Track(info.valAccuracies)
    ensures best.Some? <==> SnapshotTaken(info.valAccuracies)
    ensures best.Some? ==> best.value == ParamsAfter(params0, update, info.bestStep)
    // early stopping: only at a non-improving evaluation past the patience, and at the first such one
    ensures stoppedEarly ==> stepsTaken % EvalEvery == 0 && stepsTaken >= EvalEvery
    ensures stoppedEarly ==> StopsAt(info.valAccuracies, |info.valAccuracies| - 1, patience)
    ensures NoStopBefore(info.valAccuracies, |info.valAccuracies| - (if stoppedEarly then 1 else 0), patience)
  {
    var limit := StepLimit(totalSteps, streamLength);
    var params := params0;
    var step: nat := 0;
    var bestAccuracy: real := -1.0;
    var bestStep: nat := 1;
    var trainLog: seq<Eval> := [];
    var valLog: seq<Eval> := [];
    best := None;
    stoppedEarly := false;
    while step < limit
      invariant step <= limit && !stoppedEarly
      invariant params == ParamsAfter(params0, update, step)
      invariant EvalEvery * |valLog| <= step < EvalEvery * (|valLog| + 1)
      invariant Tracked(params0, update, trainAccuracy, valAccuracy, trainLog, valLog, bestAccuracy, bestStep, best)
      invariant NoStopBefore(valLog, |valLog|, patience)
    {
      CadenceCount(step + 1, if step + 1 < EvalEvery * (|valLog| + 1) then |valLog| else |valLog| + 1);
      step := step + 1;
      params := update(params, step);
      if step % EvalEvery == 0 {
        var trainAcc := trainAccuracy(params);
        var valAcc := valAccuracy(params);
        LogEvaluation(params0, update, trainAccuracy, valAccuracy, trainLog, valLog, bestAccuracy, bestStep, best,
          patience, step, params, trainLog + [Eval(step, trainAcc)], valLog + [Eval(step, valAcc)]);
        trainLog := trainLog + [Eval(step, trainAcc)];
        valLog := valLog + [Eval(step, valAcc)];
        if valAcc >= bestAccuracy {
          bestStep := step;
          bestAccuracy := valAcc;
          best := Some(params);
        } else if step - bestStep >= patience {
          stoppedEarly := true;
          break;
        }
      }
    }
    CadenceCount(step, |valLog|);
    info := Info(bestAccuracy, bestStep, trainLog, valLog);
    stepsTaken := step;
  }

  /** `finetune`: at most `totalSteps` updates, fewer when the training stream
      (`streamLength` batches) runs out first; every fifth step both
      accuracies are logged and the best validation snapshot kept; the loop
      breaks after a non-improving evaluation at least `patience` steps past
      the best. `best` is None exactly where the source leaves
      `best_opt_repl` unassigned. */
  method Finetune<P>(params0: P, update: (P, nat) -> P, trainAccuracy: P -> real, valAccuracy: P -> real,
                     totalSteps: nat, streamLength: nat, patience: int)
    returns (best: Option<P>, info: Info, stepsTaken: nat, stoppedEarly: bool)
    // cadence: one aligned pair per evaluation, at steps 5, 10, 15, ...
    ensures stepsTaken <= totalSteps && stepsTaken <= streamLength
    ensures !stoppedEarly ==> stepsTaken == totalSteps || stepsTaken == streamLength
    ensures |info.valAccuracies| == stepsTaken / EvalEvery
    ensures EvalsAligned(params0, update, trainAccuracy, valAccuracy, info.trainAccuracies, info.valAccuracies)
    // the best snapshot
    ensures Best(info.bestValAccuracy, info.bestStep) == Track(info.valAccuracies)
    ensures best.Some? <==> SnapshotTaken(info.valAccuracies)
    ensures best.Some? ==> best.value == ParamsAfter(params0, update, info.bestStep)
    // the snapshot is the best evaluation, logged, and the newest among equals
    ensures forall i :: 0 <= i < |info.valAccuracies| ==> info.valAccuracies[i].accuracy <= info.bestValAccuracy
    ensures best.Some? ==> exists i :: 0 <= i < |info.valAccuracies| && info.valAccuracies[i].step == info.bestStep
    ensures best.Some? ==> forall i :: 0 <= i < |info.valAccuracies| && info.valAccuracies[i].step > info.bestStep ==>
      info.valAccuracies[i].accuracy < info.bestValAccuracy
    // fewer steps than one evaluation leave the snapshot unassigned; the first evaluation assigns it
    ensures stepsTaken < EvalEvery ==> best.None?
    ensures stepsTaken >= EvalEvery && valAccuracy(ParamsAfter(params0, update, EvalEvery)) >= -1.0 ==> best.Some?
    // the log and its length are those the inputs determine
    ensures info.valAccuracies == ValLog(params0, update, valAccuracy, |info.valAccuracies|)
    ensures RunsEvals(params0, update, valAccuracy, StepLimit(totalSteps, streamLength), patience, |info.valAccuracies|)
    // early stopping: only at a non-improving evaluation past the patience, and at the first such one
    ensures stoppedEarly ==> stepsTaken % EvalEvery == 0 && stepsTaken >= EvalEvery
    ensures stoppedEarly ==> StopsAt(info.valAccuracies, |info.valAccuracies| - 1, patience)
    ensures NoStopBefore(info.valAccuracies, |info.valAccuracies| - (if stoppedEarly then 1 else 0), patience)
  {
    best, info, stepsTaken, stoppedEarly := TrainLoop(params0, update, trainAccuracy, valAccuracy,
      totalSteps, streamLength, patience);
    AlignedStepsIncrease(params0, update, trainAccuracy, valAccuracy, info.trainAccuracies, info.valAccuracies);
    BestOfLog(info.valAccuracies, info.bestValAccuracy, info.bestStep);
    EndOfRun(params0, update, trainAccuracy, valAccuracy, totalSteps, streamLength, patience,
      info.trainAccuracies, info.valAccuracies, stepsTaken, stoppedEarly);
    if stepsTaken >= EvalEvery && valAccuracy(ParamsAfter(params0, update, EvalEvery)) >= -1.0 {
      FirstEvalSetsBest(info.valAccuracies);
    }
  }
}
