/** The active-learning controller, the round loop of `main`: seed the
    labelled subset with a uniform draw, then, until the subset reaches the
    size cap, fine-tune on the subset (when it is not empty), record the test
    accuracy, score the pool with the configured acquisition method and add
    the selected ids to the subset.

    Everything the loop gets from the model, the data pipelines and the
    random-number generator comes in through `Oracles`. */
module Controller {
  import opened Common
  import opened Scores
  import opened Selection
  import opened Finetune

  /** The configuration fields the loop reads. */
  datatype Config = Config(
    acquisitionMethod: string,
    acquisitionBatchSize: nat,
    initialTrainingSetSize: int,
    maxTrainingSetSize: int,
    earlyStoppingPatience: int,
    totalSteps: nat,
    batchSize: nat)

  /** The opaque collaborators. `update(subset, params, step)` is one training
      step on the repeated stream of `subset`; `trainBatches(size, repeats)` is
      the number of batches that stream holds; `entropy`, `margin` and
      `logLikelihood` give the raw per-example value for pool position i under
      the given parameters (the last one fitted on the labelled subset);
      `split` is `jax.random.split` and `uniform(key, i)` element i of
      `jax.random.uniform(key, ...)`. */
  datatype Oracles<!P, !K> = Oracles(
    update: (set<nat>, P, nat) -> P,
    trainAccuracy: (set<nat>, P) -> real,
    valAccuracy: P -> real,
    testAccuracy: P -> real,
    trainBatches: (nat, nat) -> nat,
    entropy: (P, nat) -> real,
    margin: (P, nat) -> real,
    logLikelihood: (P, set<nat>, nat) -> real,
    split: K -> (K, K),
    uniform: (K, nat) -> real)

  datatype RunError =
    | SelectionFailed(reason: SelectionError)
    | ZeroBatchSize              // ZeroDivisionError in `size / config.batch_size`
    | SnapshotUnassigned         // `best_opt_repl` unbound at the end of `finetune`
    | UnknownAcquisitionMethod   // `raise ValueError("Acquisition method not found.")`
    | NoValidPoolEntry           // the density tail's `.max()` over no valid entry

  /** What `main` returns, with the training sizes it logs beside the
      test accuracies. */
  datatype Run = Run(acquiredIds: set<nat>, testAccuracies: seq<real>, trainingSizes: seq<nat>)

  predicate KnownMethod(m: string) {
    m == "uniform" || m == "entropy" || m == "margin" || m == "density"
  }

  /** Pool positions that hold a real example rather than batch padding. */
  function ValidPositions(masks: seq<bool>): set<nat> {
    set p: nat | p < |masks| && masks[p]
  }

  /** The ids of the valid pool entries. */
  function ValidIds(ids: seq<nat>, masks: seq<bool>): set<nat> {
    set p: nat | p < |ids| && p < |masks| && masks[p] :: ids[p]
  }

  /** Every valid pool entry is the first entry carrying its id, so that the
      slot `ids_list.index` blanks for an acquired id is that entry. */
  predicate UniqueValidIds(ids: seq<nat>, masks: seq<bool>) {
    forall p :: 0 <= p < |ids| && p < |masks| && masks[p] ==> FirstIndex(ids, ids[p]) == Some(p)
  }

  /** The pool keeps at least `k` unlabelled valid entries in every round and
      at least the initial size for the seed. */
  predicate EnoughPool(cfg: Config, masks: seq<bool>) {
    && |ValidPositions(masks)| + 1 >= cfg.maxTrainingSetSize + cfg.acquisitionBatchSize
    && |ValidPositions(masks)| >= cfg.initialTrainingSetSize
  }

  /** The initial subset size: `initial_training_set_size` when positive. */
  function InitialSize(cfg: Config): nat {
    if cfg.initialTrainingSetSize > 0 then cfg.initialTrainingSetSize else 0
  }

  /** Lines 724-725: `ceil(total_steps / (size / batch_size))`, the number of
      epochs over the subset that yields at least `total_steps` batches. */
  function NumRepeats(totalSteps: nat, size: nat, batchSize: nat): (r: nat)
    requires size > 0 && batchSize > 0
    ensures r * size >= totalSteps * batchSize
    ensures r == 0 || (r - 1) * size < totalSteps * batchSize
  {
    CeilDiv(totalSteps * batchSize, size)
  }

  /** The training step `finetune` is given for a subset. */
  function SubsetUpdate<P, K>(o: Oracles<P, K>, subset: set<nat>): (P, nat) -> P {
    (p: P, step: nat) => o.update(subset, p, step)
  }

  /** Whether the round scores uniformly: the uniform method, or density
      before anything is labelled. */
  predicate UsesUniform(m: string, size: nat) {
    m == "uniform" || (m == "density" && size == 0)
  }

  /** The per-entry log-likelihoods the density method ranks by. */
  function LogLikelihoods<P, K>(o: Oracles<P, K>, params: P, subset: set<nat>, n: nat): (r: seq<real>)
    ensures |r| == n
    ensures forall i :: 0 <= i < n ==> r[i] == o.logLikelihood(params, subset, i)
  {
    seq(n, i requires 0 <= i < n => o.logLikelihood(params, subset, i))
  }

  /** Lines 814-845: the pool scores for the round and the generator state
      after it. */
  function PoolScores<P, K>(m: string, o: Oracles<P, K>, params: P, subset: set<nat>, masks: seq<bool>, rng: K)
    : (r: (Result<seq<Score>, RunError>, K))
    ensures r.0.Ok? ==> RespectsMask(r.0.value, masks)
    ensures !KnownMethod(m) ==> r.0 == Err(UnknownAcquisitionMethod)
    ensures r.0.Err? ==> !KnownMethod(m) || (m == "density" && |subset| > 0 && ValidPositions(masks) == {})
    // the uniform draw is keyed by the freshly split key, which is also the state carried on
    ensures UsesUniform(m, |subset|) ==>
      r.1 == o.split(rng).0 && r.0 == Ok(UniformScores(masks, r.1, o.uniform))
    ensures !UsesUniform(m, |subset|) ==> r.1 == rng
    // valid entries carry the entropy, the negated margin, or rank by least likelihood
    ensures m == "entropy" ==> r.0.Ok? && forall i :: 0 <= i < |masks| && masks[i] ==>
      r.0.value[i] == Finite(o.entropy(params, i))
    ensures m == "margin" ==> r.0.Ok? && forall i :: 0 <= i < |masks| && masks[i] ==>
      r.0.value[i] == Finite(-o.margin(params, i))
    ensures m == "density" && |subset| > 0 && ValidPositions(masks) != {} ==> r.0.Ok?
    ensures m == "density" && |subset| > 0 && r.0.Ok? ==>
      forall i, j :: 0 <= i < |masks| && 0 <= j < |masks| && masks[i] && masks[j] ==>
        (o.logLikelihood(params, subset, i) <= o.logLikelihood(params, subset, j) <==> AtMost(r.0.value[j], r.0.value[i]))
    // and are exactly the density tail over those log-likelihoods
    ensures m == "density" && |subset| > 0 ==>
      (r.0.Ok? <==> DensityScores(LogLikelihoods(o, params, subset, |masks|), masks).Some?)
    ensures m == "density" && |subset| > 0 && r.0.Ok? ==>
      Some(r.0.value) == DensityScores(LogLikelihoods(o, params, subset, |masks|), masks)
  {
    var n := |masks|;
    if UsesUniform(m, |subset|) then
      var key := o.split(rng).0;
      (Ok(UniformScores(masks, key, o.uniform)), key)
    else if m == "entropy" then
      (Ok(EntropyScores(seq(n, i requires 0 <= i < n => o.entropy(params, i)), masks)), rng)
    else if m == "margin" then
      (Ok(MarginScores(seq(n, i requires 0 <= i < n => o.margin(params, i)), masks)), rng)
    else if m == "density" then
      var d := DensityScores(LogLikelihoods(o, params, subset, n), masks);
      if d.None? then
        assert forall i :: 0 <= i < n ==> !masks[i];
        assert ValidPositions(masks) == {};
        (Err(NoValidPoolEntry), rng)
      else
        (Ok(d.value), rng)
    else
      (Err(UnknownAcquisitionMethod), rng)
  }

  /** A finite slot after blanking the acquired ids is a valid entry whose id
      is not yet acquired, and every such entry stays finite. */
  lemma FiniteSlotIsFresh(scores: seq<Score>, ids: seq<nat>, masks: seq<bool>, subset: set<nat>, p: nat)
    requires |scores| == |ids| == |masks| && p < |ids|
    requires RespectsMask(scores, masks) && UniqueValidIds(ids, masks)
    ensures AcquiredMasked(scores, ids, subset)[p].Finite? <==> masks[p] && ids[p] !in subset
  {
    if masks[p] {
      assert FirstIndex(ids, ids[p]) == Some(p);
    }
  }

  /** The slots left finite after blanking, together with the acquired
      ids, cover every valid entry. */
  lemma FreshFiniteCount(scores: seq<Score>, ids: seq<nat>, masks: seq<bool>, subset: set<nat>)
    requires |scores| == |ids| == |masks|
    requires RespectsMask(scores, masks) && UniqueValidIds(ids, masks)
    ensures |set i: nat | i < |ids| && AcquiredMasked(scores, ids, subset)[i].Finite?| + |subset|
      >= |ValidPositions(masks)|
  {
    var masked := AcquiredMasked(scores, ids, subset);
    var valid := ValidPositions(masks);
    var finite := set i: nat | i < |ids| && masked[i].Finite?;
    var taken := set p: nat | p in valid && ids[p] in subset;
    forall p | p in valid ensures p in finite || p in taken {
      FiniteSlotIsFresh(scores, ids, masks, subset, p);
    }
    assert valid <= finite + taken;
    SubsetCard(valid, finite + taken);
    forall i, j | i in taken && j in taken && ids[i] == ids[j] ensures i == j {
      assert FirstIndex(ids, ids[i]) == Some(i) && FirstIndex(ids, ids[j]) == Some(j);
    }
    InjectiveCard(taken, ids, subset);
  }

  /** Selected slots that are all finite carry distinct ids none of which is
      acquired yet. */
  lemma FreshBatchIds(scores: seq<Score>, ids: seq<nat>, masks: seq<bool>, subset: set<nat>,
                      pos: seq<nat>, batchIds: seq<nat>)
    requires |scores| == |ids| == |masks|
    requires RespectsMask(scores, masks) && UniqueValidIds(ids, masks)
    requires Distinct(pos) && |batchIds| == |pos|
    requires forall t :: 0 <= t < |pos| ==> pos[t] < |ids| && batchIds[t] == ids[pos[t]]
    requires forall t :: 0 <= t < |pos| ==> AcquiredMasked(scores, ids, subset)[pos[t]].Finite?
    ensures Distinct(batchIds)
    ensures forall t :: 0 <= t < |pos| ==> masks[pos[t]] && batchIds[t] !in subset
  {
    forall t | 0 <= t < |pos| ensures masks[pos[t]] && batchIds[t] !in subset {
      FiniteSlotIsFresh(scores, ids, masks, subset, pos[t]);
    }
    forall s, u | 0 <= s < u < |pos| ensures batchIds[s] != batchIds[u] {
      assert FirstIndex(ids, ids[pos[s]]) == Some(pos[s]) && FirstIndex(ids, ids[pos[u]]) == Some(pos[u]);
    }
  }

  /** What one selection does to the subset: it always gains an id, and
      gains exactly `k` when the pool still has `k` unlabelled valid entries. */
  lemma SelectionGrowsSubset(scores: seq<Score>, ids: seq<nat>, masks: seq<bool>, subset: set<nat>,
                             k: nat, pos: seq<nat>, batchIds: seq<nat>)
    requires |scores| == |ids| == |masks|
    requires RespectsMask(scores, masks) && UniqueValidIds(ids, masks)
    requires IsTopK(AcquiredMasked(scores, ids, subset), pos, k)
    requires HasFinite(AcquiredMasked(scores, ids, subset)) && k >= 1
    requires |batchIds| == k && forall t :: 0 <= t < k ==> batchIds[t] == ids[pos[t]]
    ensures subset < subset + (set x: nat | x in batchIds)
    ensures |ValidPositions(masks)| >= |subset| + k ==> |subset + (set x: nat | x in batchIds)| == |subset| + k
    ensures |ValidPositions(masks)| >= |subset| + k ==>
      forall t :: 0 <= t < k ==> batchIds[t] in ValidIds(ids, masks) && batchIds[t] !in subset
  {
    var masked := AcquiredMasked(scores, ids, subset);
    var added := set x: nat | x in batchIds;
    TopKReachesFinite(masked, pos, k);
    var t :| 0 <= t < k && masked[pos[t]].Finite?;
    FiniteSlotIsFresh(scores, ids, masks, subset, pos[t]);
    assert batchIds[t] in added - subset;
    if |ValidPositions(masks)| >= |subset| + k {
      FreshFiniteCount(scores, ids, masks, subset);
      TopKAvoidsSentinel(masked, pos, k);
      FreshBatchIds(scores, ids, masks, subset, pos, batchIds);
      DistinctCard(batchIds);
      assert subset !! added;
      forall t | 0 <= t < k ensures batchIds[t] in ValidIds(ids, masks) {
        assert pos[t] < |ids| && masks[pos[t]];
      }
    }
  }

  /** The initial subset: `k` ids drawn uniformly, nothing ignored. */
  method SeedSubset<P, K>(k: nat, o: Oracles<P, K>, poolIds: seq<nat>, poolMasks: seq<bool>, key: K)
    returns (r: Result<seq<nat>, RunError>)
    requires |poolIds| == |poolMasks| && UniqueValidIds(poolIds, poolMasks) && k >= 1
    ensures r.Ok? ==> |r.value| == k && forall x :: x in r.value ==> x in poolIds
    ensures r.Ok? && |ValidPositions(poolMasks)| >= k ==> |set x: nat | x in r.value| == k
    ensures r.Err? <==> ValidPositions(poolMasks) == {} || k >= |poolIds|
    // the ids of a top-k choice over the uniform draw of `key`, all valid given enough valid entries
    ensures r.Ok? ==> TopKBatch(UniformScores(poolMasks, key, o.uniform), poolIds, k, r.value)
    ensures r.Ok? && |ValidPositions(poolMasks)| >= k ==> forall x :: x in r.value ==> x in ValidIds(poolIds, poolMasks)
  {
    var scores := UniformScores(poolMasks, key, o.uniform);
    AcquiredMaskedNothing(scores, poolIds);
    ValidIsFiniteWhenNothingIgnored(scores, poolIds, poolMasks);
    assert AllInPool({}, poolIds);
    var none: set<nat> := {};
    r := Acquire(k, scores, poolIds, poolMasks, none);
    if r.Ok? && |ValidPositions(poolMasks)| >= k {
      var seeded := set x: nat | x in r.value;
      assert none + seeded == seeded;
    }
  }

  /** With nothing acquired yet, a pool has a finite score exactly when it
      has a valid entry. */
  lemma ValidIsFiniteWhenNothingIgnored(scores: seq<Score>, ids: seq<nat>, masks: seq<bool>)
    requires |scores| == |ids| == |masks| && RespectsMask(scores, masks)
    ensures HasFinite(AcquiredMasked(scores, ids, {})) <==> ValidPositions(masks) != {}
  {
    var masked := AcquiredMasked(scores, ids, {});
    if ValidPositions(masks) != {} {
      var p :| p in ValidPositions(masks);
      assert masked[p].Finite?;
    }
    if HasFinite(masked) {
      var p :| 0 <= p < |masked| && masked[p].Finite?;
      assert p in ValidPositions(masks);
    }
  }

  /** The steps fine-tuning on a non-empty subset may take: `total_steps`,
      or fewer when the repeated subset stream runs out first. */
  function RoundStepLimit<P, K>(cfg: Config, o: Oracles<P, K>, subset: set<nat>): nat
    requires |subset| > 0 && cfg.batchSize > 0
  {
    StepLimit(cfg.totalSteps, o.trainBatches(|subset|, NumRepeats(cfg.totalSteps, |subset|, cfg.batchSize)))
  }

  /** Fine-tuning on `subset` makes exactly `n` evaluations. */
  predicate RoundEvals<P, K>(cfg: Config, o: Oracles<P, K>, params0: P, subset: set<nat>, n: nat) {
    && |subset| > 0 && cfg.batchSize > 0
    && RunsEvals(params0, SubsetUpdate(o, subset), o.valAccuracy, RoundStepLimit(cfg, o, subset),
                 cfg.earlyStoppingPatience, n)
  }

  /** The validation log of the first `n` evaluations of fine-tuning on `subset`. */
  function RoundLog<P, K>(o: Oracles<P, K>, params0: P, subset: set<nat>, n: nat): seq<Eval> {
    ValLog(params0, SubsetUpdate(o, subset), o.valAccuracy, n)
  }

  /** Fine-tuning is skipped on an empty subset; otherwise it makes `n`
      evaluations and one of them assigned the snapshot. */
  predicate TunedWith<P, K>(cfg: Config, o: Oracles<P, K>, params0: P, subset: set<nat>, n: nat) {
    |subset| == 0 || (RoundEvals(cfg, o, params0, subset, n) && SnapshotTaken(RoundLog(o, params0, subset, n)))
  }

  /** The parameters a round evaluates and scores with: the pretrained ones
      on an empty subset; otherwise the snapshot at the step of the best
      validation accuracy (the newest among equals) of the first `n`
      evaluations of fine-tuning on the subset. */
  function TunedParams<P, K>(o: Oracles<P, K>, params0: P, subset: set<nat>, n: nat): P {
    if |subset| == 0 then params0
    else ParamsAfter(params0, SubsetUpdate(o, subset), Track(RoundLog(o, params0, subset, n)).step)
  }

  /** `p` is the parameters the round adopts. */
  ghost predicate AdoptedParams<P, K>(cfg: Config, o: Oracles<P, K>, params0: P, subset: set<nat>, p: P) {
    exists n: nat :: TunedWith(cfg, o, params0, subset, n) && p == TunedParams(o, params0, subset, n)
  }

  /** The inputs fix the parameters a round adopts. */
  lemma AdoptedParamsUnique<P, K>(cfg: Config, o: Oracles<P, K>, params0: P, subset: set<nat>, p: P, q: P)
    requires AdoptedParams(cfg, o, params0, subset, p) && AdoptedParams(cfg, o, params0, subset, q)
    ensures p == q
  {
    var n: nat :| TunedWith(cfg, o, params0, subset, n) && p == TunedParams(o, params0, subset, n);
    var m: nat :| TunedWith(cfg, o, params0, subset, m) && q == TunedParams(o, params0, subset, m);
    if |subset| > 0 {
      EvalCountUnique(params0, SubsetUpdate(o, subset), o.valAccuracy, RoundStepLimit(cfg, o, subset),
        cfg.earlyStoppingPatience, n, m);
    }
  }

  /** Lines 719-797: the parameters the round evaluates and scores with;
      fine-tuning from the pretrained parameters when the subset is not
      empty. `evals` is the number of evaluations fine-tuning makes. */
  method RoundParams<P, K>(cfg: Config, o: Oracles<P, K>, params0: P, subset: set<nat>)
    returns (r: Result<P, RunError>, ghost evals: nat)
    ensures |subset| == 0 ==> r == Ok(params0)
    ensures |subset| > 0 && cfg.batchSize == 0 ==> r == Err(ZeroBatchSize)
    // otherwise the run makes the evaluations the inputs determine, and fails exactly when none assigned the snapshot
    ensures |subset| > 0 && cfg.batchSize > 0 ==>
      && RoundEvals(cfg, o, params0, subset, evals)
      && (r.Ok? <==> SnapshotTaken(RoundLog(o, params0, subset, evals)))
      && (r.Err? ==> r.error == SnapshotUnassigned)
    ensures |subset| > 0 && cfg.batchSize > 0 && cfg.totalSteps < EvalEvery ==> r == Err(SnapshotUnassigned)
    // the adopted parameters are the best snapshot, taken at an evaluation step within the budget
    ensures r.Ok? ==> TunedWith(cfg, o, params0, subset, evals) && r.value == TunedParams(o, params0, subset, evals)
    ensures |subset| > 0 && r.Ok? ==> exists n: nat ::
      && n % EvalEvery == 0 && EvalEvery <= n <= cfg.totalSteps
      && r.value == ParamsAfter(params0, SubsetUpdate(o, subset), n)
  {
    evals := 0;
    if |subset| == 0 {
      return Ok(params0), evals;
    }
    if cfg.batchSize == 0 {
      return Err(ZeroBatchSize), evals;
    }
    var repeats := NumRepeats(cfg.totalSteps, |subset|, cfg.batchSize);
    var best, info, steps, stopped := Finetune.Finetune(
      params0, SubsetUpdate(o, subset), (p: P) => o.trainAccuracy(subset, p), o.valAccuracy,
      cfg.totalSteps, o.trainBatches(|subset|, repeats), cfg.earlyStoppingPatience);
    evals := |info.valAccuracies|;
    assert RoundLog(o, params0, subset, evals) == info.valAccuracies;
    if best.None? {
      return Err(SnapshotUnassigned), evals;
    }
    EvalStepBounds(info.valAccuracies, info.bestStep, steps);
    r := Ok(best.value);
  }

  /** Lines 847-854: select a batch with the subset ignored. */
  method Acquire(k: nat, scores: seq<Score>, poolIds: seq<nat>, poolMasks: seq<bool>, subset: set<nat>)
    returns (r: Result<seq<nat>, RunError>)
    requires |poolIds| == |poolMasks| && UniqueValidIds(poolIds, poolMasks) && k >= 1
    requires RespectsMask(scores, poolMasks)
    ensures r.Ok? ==> |r.value| == k && forall x :: x in r.value ==> x in poolIds
    ensures r.Ok? ==> subset < subset + (set x: nat | x in r.value)
    ensures r.Ok? && |ValidPositions(poolMasks)| >= |subset| + k ==> |subset + (set x: nat | x in r.value)| == |subset| + k
    ensures r.Err? <==> !AllInPool(subset, poolIds) || !HasFinite(AcquiredMasked(scores, poolIds, subset)) || k >= |poolIds|
    // the ids of a top-k choice over the scores with the subset blanked; fresh valid ids given enough of them
    ensures r.Ok? ==> TopKBatch(AcquiredMasked(scores, poolIds, subset), poolIds, k, r.value)
    ensures r.Ok? && |ValidPositions(poolMasks)| >= |subset| + k ==>
      forall x :: x in r.value ==> x in ValidIds(poolIds, poolMasks) && x !in subset
  {
    var selected, pos := SelectAcquisitionBatch(k, scores, poolIds, subset);
    if selected.Err? {
      return Err(SelectionFailed(selected.error));
    }
    SelectionGrowsSubset(scores, poolIds, poolMasks, subset, k, pos, selected.value.ids);
    r := Ok(selected.value.ids);
  }

  /** The rounds a run makes from `init` labelled ids, `k` per round, up to
      the cap `max`. */
  function RoundsNeeded(init: nat, k: nat, max: int): nat
    requires k >= 1
  {
    if init >= max then 0 else CeilDiv(max - init, k)
  }

  /** A loop that starts at `init`, adds `k` per round and stops at the first
      size at or over `max` runs `RoundsNeeded(init, k, max)` rounds. */
  lemma RoundCount(init: nat, k: nat, max: int, rounds: nat)
    requires k >= 1
    requires rounds > 0 ==> init + (rounds - 1) * k < max
    requires init + rounds * k >= max
    ensures rounds == RoundsNeeded(init, k, max)
  {
    if init < max {
      CeilDivUnique(max - init, k, rounds);
    }
  }

  /** Starting from nothing with batches of five and a cap of twenty, the
      loop makes four rounds. */
  lemma FourRoundsToTwenty()
    ensures RoundsNeeded(0, 5, 20) == 4
  {
  }

  /** What a round hands back to the loop: the test accuracy it logs and the
      ids it acquires. */
  datatype Outcome<P> = Outcome(params: P, testAccuracy: real, batch: seq<nat>)

  /** A round's acquisition: the pool scored with `params` without error,
      the selection raising none of its errors (every subset id is in the
      pool, a finite score is left after blanking, `k` is below the pool
      length), `batch` the ids of a top-k choice over those scores with
      `subset` blanked, and `rngOut` the generator state after scoring. */
  ghost predicate AcquiredBy<P, K>(cfg: Config, o: Oracles<P, K>, poolIds: seq<nat>, poolMasks: seq<bool>,
                                   subset: set<nat>, rng: K, params: P, batch: seq<nat>, rngOut: K)
  {
    var scored := PoolScores(cfg.acquisitionMethod, o, params, subset, poolMasks, rng);
    && scored.0.Ok? && rngOut == scored.1
    && |poolIds| == |scored.0.value|
    && AllInPool(subset, poolIds) && cfg.acquisitionBatchSize < |poolIds|
    && HasFinite(AcquiredMasked(scored.0.value, poolIds, subset))
    && TopKBatch(AcquiredMasked(scored.0.value, poolIds, subset), poolIds, cfg.acquisitionBatchSize, batch)
  }

  /** What the run keeps of one round: the subset and generator state it
      started from, the number of evaluations fine-tuning made, the batch it
      acquired and the generator state after it. */
  datatype RoundRecord<K> = RoundRecord(subset: set<nat>, rng: K, evals: nat, batch: seq<nat>, rngAfter: K)

  /** The subset after the round. */
  function Grown<K>(round: RoundRecord<K>): set<nat> {
    round.subset + (set x: nat | x in round.batch)
  }

  /** The round was played as the loop body plays it: fine-tuning on its
      subset made `evals` evaluations and assigned the snapshot, the round
      logged `accuracy`, the test accuracy of the adopted parameters, and
      acquired the batch those parameters select. */
  ghost predicate RoundPlayed<P, K>(cfg: Config, o: Oracles<P, K>, params0: P, poolIds: seq<nat>, poolMasks: seq<bool>,
                                    round: RoundRecord<K>, accuracy: real)
  {
    && TunedWith(cfg, o, params0, round.subset, round.evals)
    && accuracy == o.testAccuracy(TunedParams(o, params0, round.subset, round.evals))
    && AcquiredBy(cfg, o, poolIds, poolMasks, round.subset, round.rng, TunedParams(o, params0, round.subset, round.evals),
                  round.batch, round.rngAfter)
  }

  /** Scoring the pool with `params` fails, or selecting from those scores
      with the subset blanked raises one of the errors of lines 277-290. */
  predicate AcquireFails<P, K>(cfg: Config, o: Oracles<P, K>, poolIds: seq<nat>, poolMasks: seq<bool>,
                               subset: set<nat>, rng: K, params: P)
  {
    var scored := PoolScores(cfg.acquisitionMethod, o, params, subset, poolMasks, rng).0;
    || scored.Err?
    || !AllInPool(subset, poolIds)
    || cfg.acquisitionBatchSize >= |poolIds|
    || (|scored.value| == |poolIds| && !HasFinite(AcquiredMasked(scored.value, poolIds, subset)))
  }

  /** The round played on `subset` from generator state `rng` fails, with
      `evals` the evaluations its fine-tuning makes: fine-tuning on a
      non-empty subset divides by a zero batch size or assigns no snapshot,
      or scoring and selecting with the adopted parameters fails. */
  predicate RoundFails<P, K>(cfg: Config, o: Oracles<P, K>, params0: P, poolIds: seq<nat>, poolMasks: seq<bool>,
                             subset: set<nat>, rng: K, evals: nat)
  {
    || (|subset| > 0 && (cfg.batchSize == 0 || !SnapshotTaken(RoundLog(o, params0, subset, evals))))
    || AcquireFails(cfg, o, poolIds, poolMasks, subset, rng, TunedParams(o, params0, subset, evals))
  }

  /** Lines 814-854: score the pool with the round's parameters and select
      the next batch with the subset blanked. */
  method ScoreAndAcquire<P, K>(cfg: Config, o: Oracles<P, K>, poolIds: seq<nat>, poolMasks: seq<bool>,
                               subset: set<nat>, rng: K, params: P)
    returns (r: Result<seq<nat>, RunError>, rngOut: K)
    requires |poolIds| == |poolMasks| && UniqueValidIds(poolIds, poolMasks)
    requires cfg.acquisitionBatchSize >= 1
    ensures r.Ok? ==> AcquiredBy(cfg, o, poolIds, poolMasks, subset, rng, params, r.value, rngOut)
    ensures r.Ok? && |ValidPositions(poolMasks)| >= |subset| + cfg.acquisitionBatchSize ==>
      forall x :: x in r.value ==> x in ValidIds(poolIds, poolMasks) && x !in subset
    ensures r.Ok? ==> forall x :: x in r.value ==> x in poolIds
    ensures r.Ok? ==> subset < subset + (set x: nat | x in r.value)
    ensures r.Ok? && |ValidPositions(poolMasks)| >= |subset| + cfg.acquisitionBatchSize ==>
      |subset + (set x: nat | x in r.value)| == |subset| + cfg.acquisitionBatchSize
    ensures !KnownMethod(cfg.acquisitionMethod) ==> r == Err(UnknownAcquisitionMethod)
    // it fails exactly when scoring or selecting does, and scoring alone moves the generator
    ensures r.Err? <==> AcquireFails(cfg, o, poolIds, poolMasks, subset, rng, params)
    ensures rngOut == PoolScores(cfg.acquisitionMethod, o, params, subset, poolMasks, rng).1
  {
    var scored := PoolScores(cfg.acquisitionMethod, o, params, subset, poolMasks, rng);
    rngOut := scored.1;
    if scored.0.Err? {
      return Err(scored.0.error), rngOut;
    }
    r := Acquire(cfg.acquisitionBatchSize, scored.0.value, poolIds, poolMasks, subset);
  }

  /** One pass of the loop body, lines 719-854, for the subset at the start
      of the round; `rngOut` is the generator state after it and `evals`
      the number of evaluations fine-tuning made. */
  method PlayRound<P, K>(cfg: Config, o: Oracles<P, K>, params0: P, poolIds: seq<nat>, poolMasks: seq<bool>,
                         subset: set<nat>, rng: K)
    returns (r: Result<Outcome<P>, RunError>, rngOut: K, ghost evals: nat)
    requires |poolIds| == |poolMasks| && UniqueValidIds(poolIds, poolMasks)
    requires cfg.acquisitionBatchSize >= 1
    // the adopted parameters, their test accuracy, and the batch chosen by their scores
    ensures r.Ok? ==> AdoptedParams(cfg, o, params0, subset, r.value.params)
    ensures r.Ok? ==> r.value.testAccuracy == o.testAccuracy(r.value.params)
    ensures r.Ok? ==> AcquiredBy(cfg, o, poolIds, poolMasks, subset, rng, r.value.params, r.value.batch, rngOut)
    ensures r.Ok? ==> RoundPlayed(cfg, o, params0, poolIds, poolMasks,
                                  RoundRecord(subset, rng, evals, r.value.batch, rngOut), r.value.testAccuracy)
    ensures r.Ok? && |ValidPositions(poolMasks)| >= |subset| + cfg.acquisitionBatchSize ==>
      forall x :: x in r.value.batch ==> x in ValidIds(poolIds, poolMasks) && x !in subset
    ensures r.Ok? ==> forall x :: x in r.value.batch ==> x in poolIds
    ensures r.Ok? ==> subset < subset + (set x: nat | x in r.value.batch)
    ensures r.Ok? && |ValidPositions(poolMasks)| >= |subset| + cfg.acquisitionBatchSize ==>
      |subset + (set x: nat | x in r.value.batch)| == |subset| + cfg.acquisitionBatchSize
    ensures !KnownMethod(cfg.acquisitionMethod) ==> r.Err?
    // fine-tuning makes the evaluations the inputs determine, and the round fails exactly when
    // fine-tuning, scoring or selecting does
    ensures |subset| > 0 && cfg.batchSize > 0 ==> RoundEvals(cfg, o, params0, subset, evals)
    ensures r.Err? <==> RoundFails(cfg, o, params0, poolIds, poolMasks, subset, rng, evals)
    ensures TunedWith(cfg, o, params0, subset, evals) ==>
      rngOut == PoolScores(cfg.acquisitionMethod, o, TunedParams(o, params0, subset, evals), subset, poolMasks, rng).1
  {
    rngOut := rng;
    var params;
    params, evals := RoundParams(cfg, o, params0, subset);
    if params.Err? {
      return Err(params.error), rngOut, evals;
    }
    var testAccuracy := o.testAccuracy(params.value);
    var acquired;
    acquired, rngOut := ScoreAndAcquire(cfg, o, poolIds, poolMasks, subset, rng, params.value);
    if acquired.Err? {
      return Err(acquired.error), rngOut, evals;
    }
    r := Ok(Outcome(params.value, testAccuracy, acquired.value));
  }

  /** The labelled-id set of `train_subset_data_builder`, updated in place. */
  class SubsetIds {
    var ids: set<nat>

    constructor (initial: set<nat>)
      ensures ids == initial
    {
      ids := initial;
    }

    /** `subset_ids[...].update(acquisition_batch_ids)`. */
    method Update(batch: seq<nat>)
      modifies this
      ensures ids == old(ids) + (set x: nat | x in batch)
    {
      ids := ids + (set x: nat | x in batch);
    }
  }

  /** `played` holds of each logged round with the accuracy logged for it;
      built round by round. */
  ghost predicate EachPlayed<K>(played: (RoundRecord<K>, real) -> bool, rounds: seq<RoundRecord<K>>, accuracies: seq<real>)
    decreases |rounds|
  {
    && |accuracies| == |rounds|
    && (|rounds| > 0 ==>
          && EachPlayed(played, rounds[..|rounds| - 1], accuracies[..|rounds| - 1])
          && played(rounds[|rounds| - 1], accuracies[|rounds| - 1]))
  }

  lemma {:induction false} EachPlayedAt<K>(played: (RoundRecord<K>, real) -> bool, rounds: seq<RoundRecord<K>>,
                                           accuracies: seq<real>, i: nat)
    requires EachPlayed(played, rounds, accuracies) && i < |rounds|
    ensures played(rounds[i], accuracies[i])
    decreases |rounds|
  {
    var n := |rounds| - 1;
    if i < n {
      EachPlayedAt(played, rounds[..n], accuracies[..n], i);
      assert rounds[..n][i] == rounds[i] && accuracies[..n][i] == accuracies[i];
    }
  }

  /** The round predicate `RoundPlayed` as a value. */
  ghost function Played<P, K>(cfg: Config, o: Oracles<P, K>, params0: P, poolIds: seq<nat>, poolMasks: seq<bool>)
    : (RoundRecord<K>, real) -> bool
  {
    (round: RoundRecord<K>, accuracy: real) => RoundPlayed(cfg, o, params0, poolIds, poolMasks, round, accuracy)
  }

  /** Each logged round was played as the loop body plays it, with the
      accuracy logged for it; `RoundsPlayedEach` states it index by index. */
  ghost predicate RoundsPlayed<P, K>(cfg: Config, o: Oracles<P, K>, params0: P, poolIds: seq<nat>, poolMasks: seq<bool>,
                                     rounds: seq<RoundRecord<K>>, accuracies: seq<real>)
  {
    EachPlayed(Played(cfg, o, params0, poolIds, poolMasks), rounds, accuracies)
  }

  lemma RoundsPlayedEach<P, K>(cfg: Config, o: Oracles<P, K>, params0: P, poolIds: seq<nat>,
                               poolMasks: seq<bool>, rounds: seq<RoundRecord<K>>,
                               accuracies: seq<real>, i: nat)
    requires RoundsPlayed(cfg, o, params0, poolIds, poolMasks, rounds, accuracies)
    requires i < |rounds|
    ensures RoundPlayed(cfg, o, params0, poolIds, poolMasks, rounds[i], accuracies[i])
  {
    EachPlayedAt(Played(cfg, o, params0, poolIds, poolMasks), rounds, accuracies, i);
  }

  /** A round played as the loop body plays it is not one that fails. */
  lemma PlayedRoundSucceeds<P, K>(cfg: Config, o: Oracles<P, K>, params0: P, poolIds: seq<nat>, poolMasks: seq<bool>,
                                  round: RoundRecord<K>, accuracy: real)
    requires RoundPlayed(cfg, o, params0, poolIds, poolMasks, round, accuracy)
    ensures !RoundFails(cfg, o, params0, poolIds, poolMasks, round.subset, round.rng, round.evals)
  {
  }

  /** No logged round is one that fails. */
  lemma LoggedRoundsSucceed<P, K>(cfg: Config, o: Oracles<P, K>, params0: P, poolIds: seq<nat>, poolMasks: seq<bool>,
                                  rounds: seq<RoundRecord<K>>, accuracies: seq<real>)
    requires RoundsPlayed(cfg, o, params0, poolIds, poolMasks, rounds, accuracies)
    ensures forall i :: 0 <= i < |rounds| ==>
      !RoundFails(cfg, o, params0, poolIds, poolMasks, rounds[i].subset, rounds[i].rng, rounds[i].evals)
  {
    forall i | 0 <= i < |rounds|
      ensures !RoundFails(cfg, o, params0, poolIds, poolMasks, rounds[i].subset, rounds[i].rng, rounds[i].evals)
    {
      RoundsPlayedEach(cfg, o, params0, poolIds, poolMasks, rounds, accuracies, i);
      PlayedRoundSucceeds(cfg, o, params0, poolIds, poolMasks, rounds[i], accuracies[i]);
    }
  }

  /** Playing one more round extends the rounds played. */
  lemma PlayedAppend<P, K>(cfg: Config, o: Oracles<P, K>, params0: P, poolIds: seq<nat>, poolMasks: seq<bool>,
                           rounds: seq<RoundRecord<K>>, accuracies: seq<real>, round: RoundRecord<K>, accuracy: real)
    requires RoundsPlayed(cfg, o, params0, poolIds, poolMasks, rounds, accuracies)
    requires RoundPlayed(cfg, o, params0, poolIds, poolMasks, round, accuracy)
    ensures RoundsPlayed(cfg, o, params0, poolIds, poolMasks, rounds + [round], accuracies + [accuracy])
  {
    assert (rounds + [round])[..|rounds|] == rounds && (accuracies + [accuracy])[..|rounds|] == accuracies;
  }

  /** The log of the rounds so far: round i started below the cap, logged
      its size and strictly grew its subset; each round starts where the
      one before ended, `current` is the subset after the last round, and
      every round was played as the loop body plays it. */
  ghost predicate RoundsLogged<P, K>(cfg: Config, o: Oracles<P, K>, params0: P, poolIds: seq<nat>, poolMasks: seq<bool>,
                                     rounds: seq<RoundRecord<K>>, accuracies: seq<real>, sizes: seq<nat>, current: set<nat>)
  {
    && |sizes| == |rounds|
    && (forall i :: 0 <= i < |rounds| ==> sizes[i] == |rounds[i].subset| < cfg.maxTrainingSetSize)
    && (forall i :: 0 <= i < |rounds| ==> rounds[i].subset < Grown(rounds[i]))
    && (forall i :: 0 <= i < |rounds| - 1 ==>
          rounds[i + 1].subset == Grown(rounds[i]) && rounds[i + 1].rng == rounds[i].rngAfter)
    && (|rounds| > 0 ==> current == Grown(rounds[|rounds| - 1]))
    && RoundsPlayed(cfg, o, params0, poolIds, poolMasks, rounds, accuracies)
  }

  /** Round sizes go up by one batch each round from the initial size. */
  predicate GrowsByBatches(init: nat, k: nat, sizes: seq<nat>, current: nat) {
    && current == init + |sizes| * k
    && forall i :: 0 <= i < |sizes| ==> sizes[i] == init + i * k
  }

  /** Logging a round keeps the log consistent. */
  lemma LogRound<P, K>(cfg: Config, o: Oracles<P, K>, params0: P, poolIds: seq<nat>, poolMasks: seq<bool>,
                       rounds: seq<RoundRecord<K>>, accuracies: seq<real>, sizes: seq<nat>, current: set<nat>,
                       round: RoundRecord<K>, accuracy: real)
    requires RoundsLogged(cfg, o, params0, poolIds, poolMasks, rounds, accuracies, sizes, current)
    requires round.subset == current && |current| < cfg.maxTrainingSetSize && current < Grown(round)
    requires |rounds| > 0 ==> round.rng == rounds[|rounds| - 1].rngAfter
    requires RoundPlayed(cfg, o, params0, poolIds, poolMasks, round, accuracy)
    ensures RoundsLogged(cfg, o, params0, poolIds, poolMasks, rounds + [round], accuracies + [accuracy],
                         sizes + [|current|], Grown(round))
  {
    PlayedAppend(cfg, o, params0, poolIds, poolMasks, rounds, accuracies, round, accuracy);
    var rs := rounds + [round];
    forall i | 0 <= i < |rs| - 1 ensures rs[i + 1].subset == Grown(rs[i]) && rs[i + 1].rng == rs[i].rngAfter {
      assert rs[i] == rounds[i];
    }
  }

  /** A round that adds a full batch keeps the sizes on schedule. */
  lemma GrowRound(init: nat, k: nat, sizes: seq<nat>, current: nat)
    requires GrowsByBatches(init, k, sizes, current)
    ensures GrowsByBatches(init, k, sizes + [current], current + k)
  {
    assert init + (|sizes| + 1) * k == init + |sizes| * k + k;
  }

  /** Lines 663-683: the seed subset is empty when the initial size is not
      positive, and otherwise holds the ids of a top-k choice over the
      uniform scores keyed by the key split off `rng0`. */
  ghost predicate Seeded<P, K>(cfg: Config, o: Oracles<P, K>, poolIds: seq<nat>, poolMasks: seq<bool>, rng0: K,
                               seed: set<nat>)
  {
    if cfg.initialTrainingSetSize <= 0 then seed == {}
    else exists batch ::
      && TopKBatch(UniformScores(poolMasks, o.split(rng0).1, o.uniform), poolIds, cfg.initialTrainingSetSize, batch)
      && seed == (set x: nat | x in batch)
  }

  /** Lines 674-709: the generator state the loop starts from, after the
      seed's split (when there is a seed) and the splits that make
      `rng_loop` and `train_ds_rng`. */
  function LoopRng<P, K>(cfg: Config, o: Oracles<P, K>, rng0: K): K {
    var afterSeed := if cfg.initialTrainingSetSize > 0 then o.split(rng0).0 else rng0;
    o.split(o.split(afterSeed).0).0
  }

  /** Seed selection fails: a positive initial size with no valid pool entry
      or no fewer pool entries than the initial size. */
  predicate SeedFails(cfg: Config, poolIds: seq<nat>, poolMasks: seq<bool>) {
    cfg.initialTrainingSetSize > 0 && (ValidPositions(poolMasks) == {} || cfg.initialTrainingSetSize >= |poolIds|)
  }

  /** Lines 663-711: the seed subset and the generator state the loop starts
      from. */
  method InitialSubset<P, K>(cfg: Config, o: Oracles<P, K>, poolIds: seq<nat>, poolMasks: seq<bool>, rng0: K)
    returns (r: Result<set<nat>, RunError>, rng: K)
    requires |poolIds| == |poolMasks| && UniqueValidIds(poolIds, poolMasks)
    ensures cfg.initialTrainingSetSize <= 0 ==> r == Ok({})
    ensures r.Ok? ==> forall x :: x in r.value ==> x in poolIds
    ensures r.Ok? && EnoughPool(cfg, poolMasks) ==> |r.value| == InitialSize(cfg)
    ensures r.Err? <==> SeedFails(cfg, poolIds, poolMasks)
    // the seed is the uniform top-k choice, at most the initial size and all valid with enough pool
    ensures r.Ok? ==> Seeded(cfg, o, poolIds, poolMasks, rng0, r.value) && rng == LoopRng(cfg, o, rng0)
    ensures r.Ok? ==> |r.value| <= InitialSize(cfg)
    ensures r.Ok? && EnoughPool(cfg, poolMasks) ==> r.value <= ValidIds(poolIds, poolMasks)
  {
    rng := rng0;
    r := Ok({});
    if cfg.initialTrainingSetSize > 0 {
      var keys := o.split(rng);
      rng := keys.0;
      var seeded := SeedSubset(cfg.initialTrainingSetSize, o, poolIds, poolMasks, keys.1);
      if seeded.Err? {
        return Err(seeded.error), rng;
      }
      r := Ok(set x: nat | x in seeded.value);
      SetOfSeqCard(seeded.value);
    }
    rng := o.split(rng).0;  // rng_loop, for the training steps
    rng := o.split(rng).0;  // train_ds_rng, for the training stream
  }

  /** The generator state after the rounds logged so far. */
  function NextRng<K>(rng0: K, rounds: seq<RoundRecord<K>>): K {
    if |rounds| == 0 then rng0 else rounds[|rounds| - 1].rngAfter
  }

  /** What holds at the top of each iteration of the round loop started
      from `seed` and `rng0`, with `current` the subset. */
  ghost predicate LoopState<P, K>(cfg: Config, o: Oracles<P, K>, params0: P, poolIds: seq<nat>, poolMasks: seq<bool>,
                                  seed: set<nat>, rng0: K, rounds: seq<RoundRecord<K>>,
                                  accuracies: seq<real>, sizes: seq<nat>, current: set<nat>)
  {
    && RoundsLogged(cfg, o, params0, poolIds, poolMasks, rounds, accuracies, sizes, current)
    && (if |rounds| > 0 then rounds[0].subset == seed && rounds[0].rng == rng0 else current == seed)
    && (!KnownMethod(cfg.acquisitionMethod) ==> |rounds| == 0)
    && (EnoughPool(cfg, poolMasks) ==>
          && GrowsByBatches(InitialSize(cfg), cfg.acquisitionBatchSize, sizes, |current|)
          && current <= ValidIds(poolIds, poolMasks))
  }

  /** A round played from below the cap keeps the loop state. */
  lemma AdvanceState<P, K>(cfg: Config, o: Oracles<P, K>, params0: P, poolIds: seq<nat>, poolMasks: seq<bool>,
                           seed: set<nat>, rng0: K, rounds: seq<RoundRecord<K>>,
                           accuracies: seq<real>, sizes: seq<nat>, current: set<nat>,
                           round: RoundRecord<K>, accuracy: real)
    requires LoopState(cfg, o, params0, poolIds, poolMasks, seed, rng0, rounds, accuracies, sizes, current)
    requires |current| < cfg.maxTrainingSetSize && KnownMethod(cfg.acquisitionMethod)
    requires round.subset == current && round.rng == NextRng(rng0, rounds) && current < Grown(round)
    requires RoundPlayed(cfg, o, params0, poolIds, poolMasks, round, accuracy)
    requires |ValidPositions(poolMasks)| >= |current| + cfg.acquisitionBatchSize ==>
      && |Grown(round)| == |current| + cfg.acquisitionBatchSize
      && forall x :: x in round.batch ==> x in ValidIds(poolIds, poolMasks) && x !in current
    ensures LoopState(cfg, o, params0, poolIds, poolMasks, seed, rng0, rounds + [round],
                      accuracies + [accuracy], sizes + [|current|], Grown(round))
  {
    LogRound(cfg, o, params0, poolIds, poolMasks, rounds, accuracies, sizes, current, round, accuracy);
    if EnoughPool(cfg, poolMasks) {
      GrowRound(InitialSize(cfg), cfg.acquisitionBatchSize, sizes, |current|);
    }
    assert (rounds + [round])[0] == if |rounds| > 0 then rounds[0] else round;
  }

  /** One iteration of the loop of lines 711-854, from below the cap: play
      the round on the current subset and add the batch to it in place. */
  method StepRound<P, K>(cfg: Config, o: Oracles<P, K>, params0: P, poolIds: seq<nat>, poolMasks: seq<bool>,
                         seed: set<nat>, rng0: K, ghost rounds: seq<RoundRecord<K>>,
                         accuracies: seq<real>, sizes: seq<nat>, subset: SubsetIds, rng: K)
    returns (r: Result<real, RunError>, rngOut: K, ghost round: RoundRecord<K>)
    requires |poolIds| == |poolMasks| && UniqueValidIds(poolIds, poolMasks)
    requires cfg.acquisitionBatchSize >= 1
    requires LoopState(cfg, o, params0, poolIds, poolMasks, seed, rng0, rounds, accuracies, sizes, subset.ids)
    requires rng == NextRng(rng0, rounds) && |subset.ids| < cfg.maxTrainingSetSize
    modifies subset
    ensures r.Ok? ==> round.subset == old(subset.ids) && round.rngAfter == rngOut && subset.ids == Grown(round)
    ensures r.Ok? ==> LoopState(cfg, o, params0, poolIds, poolMasks, seed, rng0, rounds + [round],
                                accuracies + [r.value], sizes + [|old(subset.ids)|], subset.ids)
    ensures r.Ok? ==> old(subset.ids) < subset.ids
    ensures r.Ok? ==> forall x :: x in subset.ids ==> x in old(subset.ids) || x in poolIds
    // the round starts from the current subset and generator state, and fails exactly when
    // the round played from there fails, leaving the subset as it was
    ensures round.subset == old(subset.ids) && round.rng == rng
    ensures |old(subset.ids)| > 0 && cfg.batchSize > 0 ==> RoundEvals(cfg, o, params0, old(subset.ids), round.evals)
    ensures r.Err? <==> RoundFails(cfg, o, params0, poolIds, poolMasks, old(subset.ids), rng, round.evals)
    ensures r.Err? ==> subset.ids == old(subset.ids)
  {
    var outcome;
    ghost var evals;
    outcome, rngOut, evals := PlayRound(cfg, o, params0, poolIds, poolMasks, subset.ids, rng);
    round := RoundRecord(subset.ids, rng, evals, if outcome.Ok? then outcome.value.batch else [], rngOut);
    if outcome.Err? {
      return Err(outcome.error), rngOut, round;
    }
    AdvanceState(cfg, o, params0, poolIds, poolMasks, seed, rng0, rounds, accuracies, sizes,
      subset.ids, round, outcome.value.testAccuracy);
    subset.Update(outcome.value.batch);
    r := Ok(outcome.value.testAccuracy);
  }

  /** When the loop exits at the cap, the log starts at the seed and, with
      enough pool, holds exactly the rounds the schedule needs. */
  lemma LoopExit<P, K>(cfg: Config, o: Oracles<P, K>, params0: P, poolIds: seq<nat>, poolMasks: seq<bool>,
                       seed: set<nat>, rng0: K, rounds: seq<RoundRecord<K>>,
                       accuracies: seq<real>, sizes: seq<nat>, current: set<nat>)
    requires cfg.acquisitionBatchSize >= 1
    requires LoopState(cfg, o, params0, poolIds, poolMasks, seed, rng0, rounds, accuracies, sizes, current)
    requires |current| >= cfg.maxTrainingSetSize
    ensures EnoughPool(cfg, poolMasks) ==>
      |rounds| == RoundsNeeded(InitialSize(cfg), cfg.acquisitionBatchSize, cfg.maxTrainingSetSize)
  {
    if EnoughPool(cfg, poolMasks) {
      RoundCount(InitialSize(cfg), cfg.acquisitionBatchSize, cfg.maxTrainingSetSize, |rounds|);
    }
  }

  /** The run stopped with an error in the round after `rounds`: the rounds
      before it are logged as played, leaving `reached` (the accuracies and
      sizes logged and the subset grown so far); the failing round began
      below the cap from that subset and from the generator state after
      `rounds`; fine-tuning in it made `evals` evaluations; and it fails. */
  ghost predicate FailedAfter<P, K>(cfg: Config, o: Oracles<P, K>, params0: P, poolIds: seq<nat>, poolMasks: seq<bool>,
                                    rng0: K, rounds: seq<RoundRecord<K>>, reached: Run, evals: nat)
  {
    && RoundsLogged(cfg, o, params0, poolIds, poolMasks, rounds,
                    reached.testAccuracies, reached.trainingSizes, reached.acquiredIds)
    && |reached.acquiredIds| < cfg.maxTrainingSetSize
    && (|reached.acquiredIds| > 0 && cfg.batchSize > 0 ==> RoundEvals(cfg, o, params0, reached.acquiredIds, evals))
    && RoundFails(cfg, o, params0, poolIds, poolMasks, reached.acquiredIds, NextRng(rng0, rounds), evals)
  }

  /** A round that fails from the loop state ends the run after the rounds
      logged so far, which start at the seed. */
  lemma LoopFailed<P, K>(cfg: Config, o: Oracles<P, K>, params0: P, poolIds: seq<nat>, poolMasks: seq<bool>,
                         seed: set<nat>, rng0: K, rounds: seq<RoundRecord<K>>,
                         accuracies: seq<real>, sizes: seq<nat>, current: set<nat>, evals: nat)
    requires LoopState(cfg, o, params0, poolIds, poolMasks, seed, rng0, rounds, accuracies, sizes, current)
    requires |current| < cfg.maxTrainingSetSize
    requires |current| > 0 && cfg.batchSize > 0 ==> RoundEvals(cfg, o, params0, current, evals)
    requires RoundFails(cfg, o, params0, poolIds, poolMasks, current, NextRng(rng0, rounds), evals)
    ensures FailedAfter(cfg, o, params0, poolIds, poolMasks, rng0, rounds, Run(current, accuracies, sizes), evals)
    ensures (if |rounds| > 0 then rounds[0].subset else current) == seed
    ensures |rounds| > 0 ==> rounds[0].rng == rng0
  {
  }

  /** The `while True` loop of lines 711-854, from the seed `seed` and
      generator state `rng0`; `rounds` records each round played. */
  method RunRounds<P, K>(cfg: Config, o: Oracles<P, K>, params0: P, poolIds: seq<nat>, poolMasks: seq<bool>,
                         seed: set<nat>, rng0: K)
    returns (r: Result<Run, RunError>, ghost rounds: seq<RoundRecord<K>>, ghost reached: Run, ghost evals: nat)
    requires |poolIds| == |poolMasks| && UniqueValidIds(poolIds, poolMasks)
    requires cfg.acquisitionBatchSize >= 1
    requires forall x :: x in seed ==> x in poolIds
    requires EnoughPool(cfg, poolMasks) ==> |seed| == InitialSize(cfg) && seed <= ValidIds(poolIds, poolMasks)
    ensures r.Ok? ==> (if |rounds| > 0 then rounds[0].subset else r.value.acquiredIds) == seed
    ensures r.Ok? && |rounds| > 0 ==> rounds[0].rng == rng0
    ensures r.Ok? ==> RoundsLogged(cfg, o, params0, poolIds, poolMasks, rounds,
                                   r.value.testAccuracies, r.value.trainingSizes, r.value.acquiredIds)
    ensures r.Ok? ==> |r.value.acquiredIds| >= cfg.maxTrainingSetSize
    ensures r.Ok? ==> forall x :: x in r.value.acquiredIds ==> x in poolIds
    ensures r.Ok? && !KnownMethod(cfg.acquisitionMethod) ==> |rounds| == 0
    ensures r.Ok? && EnoughPool(cfg, poolMasks) ==>
      && GrowsByBatches(InitialSize(cfg), cfg.acquisitionBatchSize, r.value.trainingSizes, |r.value.acquiredIds|)
      && |rounds| == RoundsNeeded(InitialSize(cfg), cfg.acquisitionBatchSize, cfg.maxTrainingSetSize)
      && r.value.acquiredIds <= ValidIds(poolIds, poolMasks)
    // a run that fails does so in the round after the logged ones, which start at the seed
    ensures r.Err? ==> FailedAfter(cfg, o, params0, poolIds, poolMasks, rng0, rounds, reached, evals)
    ensures r.Err? ==> (if |rounds| > 0 then rounds[0].subset else reached.acquiredIds) == seed
    ensures r.Err? && |rounds| > 0 ==> rounds[0].rng == rng0
  {
    var rng := rng0;
    var subset := new SubsetIds(seed);
    var testAccuracies: seq<real> := [];
    var trainingSizes: seq<nat> := [];
    ghost var poolSet := set x: nat | x in poolIds;
    rounds := [];
    while |subset.ids| < cfg.maxTrainingSetSize
      invariant subset.ids <= poolSet
      invariant LoopState(cfg, o, params0, poolIds, poolMasks, seed, rng0, rounds, testAccuracies, trainingSizes,
                          subset.ids)
      invariant rng == NextRng(rng0, rounds)
      decreases |poolSet| - |subset.ids|
    {
      var size: nat := |subset.ids|;
      ghost var before := subset.ids;
      var accuracy;
      ghost var round;
      accuracy, rng, round := StepRound(cfg, o, params0, poolIds, poolMasks, seed, rng0, rounds,
        testAccuracies, trainingSizes, subset, rng);
      if accuracy.Err? {
        LoopFailed(cfg, o, params0, poolIds, poolMasks, seed, rng0, rounds, testAccuracies, trainingSizes,
          before, round.evals);
        return Err(accuracy.error), rounds, Run(before, testAccuracies, trainingSizes), round.evals;
      }
      testAccuracies := testAccuracies + [accuracy.value];
      trainingSizes := trainingSizes + [size];
      rounds := rounds + [round];
      ProperSubsetCard(before, subset.ids);
      SubsetCard(subset.ids, poolSet);
    }
    LoopExit(cfg, o, params0, poolIds, poolMasks, seed, rng0, rounds, testAccuracies, trainingSizes, subset.ids);
    r := Ok(Run(subset.ids, testAccuracies, trainingSizes));
    reached, evals := r.value, 0;
  }

  /** `main` from line 663 on. `rng0` is the generator state after the
      splits of lines 608 and 645; `rounds` records each round played. */
  method ActiveLearning<P, K>(cfg: Config, o: Oracles<P, K>, params0: P, rng0: K,
                              poolIds: seq<nat>, poolMasks: seq<bool>)
    returns (r: Result<Run, RunError>, ghost rounds: seq<RoundRecord<K>>, ghost reached: Run, ghost evals: nat)
    requires |poolIds| == |poolMasks| && UniqueValidIds(poolIds, poolMasks)
    requires cfg.acquisitionBatchSize >= 1
    // the run starts from the seed and the generator state after the seed's splits
    ensures r.Ok? ==> Seeded(cfg, o, poolIds, poolMasks, rng0, if |rounds| > 0 then rounds[0].subset else r.value.acquiredIds)
    ensures r.Ok? && |rounds| > 0 ==> rounds[0].rng == LoopRng(cfg, o, rng0) && |rounds[0].subset| <= InitialSize(cfg)
    // one log entry per round, each round starting below the cap where the one before ended,
    // logging the test accuracy of the parameters it adopted and growing the subset by the
    // batch they select; the loop exits at the cap
    ensures r.Ok? ==> RoundsLogged(cfg, o, params0, poolIds, poolMasks, rounds,
                                   r.value.testAccuracies, r.value.trainingSizes, r.value.acquiredIds)
    ensures r.Ok? ==> |r.value.acquiredIds| >= cfg.maxTrainingSetSize
    ensures r.Ok? ==> forall x :: x in r.value.acquiredIds ==> x in poolIds
    // an unknown method fails in the first round, so a run that returns made none
    ensures r.Ok? && !KnownMethod(cfg.acquisitionMethod) ==> |rounds| == 0
    ensures !KnownMethod(cfg.acquisitionMethod) && InitialSize(cfg) < cfg.maxTrainingSetSize ==> r.Err?
    // with enough pool every round adds exactly one batch of valid entries
    ensures r.Ok? && EnoughPool(cfg, poolMasks) ==>
      && GrowsByBatches(InitialSize(cfg), cfg.acquisitionBatchSize, r.value.trainingSizes, |r.value.acquiredIds|)
      && |rounds| == RoundsNeeded(InitialSize(cfg), cfg.acquisitionBatchSize, cfg.maxTrainingSetSize)
      && r.value.acquiredIds <= ValidIds(poolIds, poolMasks)
    // a run that returns failed in no round; a run fails when the seed selection fails, and
    // otherwise only in a round that fails after the rounds logged from the seed
    ensures r.Ok? ==> !SeedFails(cfg, poolIds, poolMasks) && forall i :: 0 <= i < |rounds| ==>
      !RoundFails(cfg, o, params0, poolIds, poolMasks, rounds[i].subset, rounds[i].rng, rounds[i].evals)
    ensures SeedFails(cfg, poolIds, poolMasks) ==> r.Err? && |rounds| == 0
    ensures r.Err? && !SeedFails(cfg, poolIds, poolMasks) ==>
      && Seeded(cfg, o, poolIds, poolMasks, rng0, if |rounds| > 0 then rounds[0].subset else reached.acquiredIds)
      && (|rounds| > 0 ==> |rounds[0].subset| <= InitialSize(cfg))
      && FailedAfter(cfg, o, params0, poolIds, poolMasks, LoopRng(cfg, o, rng0), rounds, reached, evals)
  {
    var seeded, rng := InitialSubset(cfg, o, poolIds, poolMasks, rng0);
    if seeded.Err? {
      return Err(seeded.error), [], Run({}, [], []), 0;
    }
    r, rounds, reached, evals := RunRounds(cfg, o, params0, poolIds, poolMasks, seeded.value, rng);
    if r.Ok? {
      LoggedRoundsSucceed(cfg, o, params0, poolIds, poolMasks, rounds, r.value.testAccuracies);
    }
  }
}
