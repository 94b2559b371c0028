# Active learning on a pretrained vision transformer: a Dafny model

`baselines/jft/active_learning.py` runs pool-based active learning. A
pretrained model starts with an empty or uniformly seeded labelled subset of a
pool. Then, until the subset reaches a size cap, it repeats one round:

- fine-tune on the subset with early stopping on validation accuracy;
- record the test accuracy;
- score every pool example with an acquisition function (uniform, entropy,
  margin or feature density);
- add the ids of the best-scoring batch to the subset.

This project models the control and selection logic of that script and proves
what it promises. The modules are:

- `Common` (`common.dfy`): `Option` and `Result`, `FirstIndex` (Python's
  `list.index`), ceiling division, and counting facts about finite sets.
- `Scores` (`scores.dfy`): scores as extended reals with the `-inf`
  sentinel `NINF_SCORE`.
  - The mask-and-normalise tails of `get_entropy_scores`,
    `get_margin_scores`, `get_uniform_scores` and `get_density_scores`.
- `Selection` (`selection.dfy`): `select_acquisition_batch_indices`.
  - An in-place loop over a copied score array blanks the previously acquired
    ids.
  - A top-k pass then takes the positions of the `k` largest scores.
  - Every Python exception on this path becomes an error value.
- `Finetune` (`finetune.dfy`): the early-stopping training loop of `finetune`.
  - It updates once per step and logs both accuracies every fifth step.
  - It keeps the best validation snapshot and breaks on lost patience.
  - It reports an error where `best_opt_repl` would be unbound.
- `PreprocessSpec` (`pp_spec.dfy`): the rewrite of `pp_eval` that swaps its
  last op for `keep(["image", "labels", "id"])`.
- `Controller` (`controller.dfy`): the round loop of `main`.
  - The labelled-id set is a class updated in place.
  - The model, data pipelines, accuracy evaluation and random generator are
    functions passed in through `Oracles`.

## Model

| member | source | states |
|---|---|---|
| Common.FirstIndex | baselines/jft/active_learning.py:278-280 | `ids_list.index(x)`: None exactly when `x` is absent; otherwise a position holding `x` with no earlier occurrence |
| Common.CeilDiv | baselines/jft/active_learning.py:724-725 | `math.ceil(n / d)` on exact rationals: the least `q` with `q * d >= n` |
| Scores.Where | baselines/jft/active_learning.py:176 | `jnp.where(masks, v, NINF_SCORE)`: exactly the invalid entries hold the sentinel; valid entries keep their value |
| Scores.EntropyScores | baselines/jft/active_learning.py:159-178 | entropy scores respect the mask, and each valid entry is that example's entropy |
| Scores.MarginScores | baselines/jft/active_learning.py:181-200 | valid entries are the negated margins, so a smaller margin never ranks below a larger one; padding is the sentinel |
| Scores.UniformScores | baselines/jft/active_learning.py:203-216 | valid entries are the draws of the given key; padding is the sentinel |
| Scores.MaxValid | baselines/jft/active_learning.py:253-254 | the maximum over valid entries: None exactly when no entry is valid (numpy's empty `.max()` raises); otherwise an attained upper bound |
| Scores.DensityScores | baselines/jft/active_learning.py:219-257 | None exactly when the pool has no valid entry; otherwise each valid score is the largest valid log-likelihood minus the entry's own, so valid scores rank in reverse order of log-likelihood (both directions), are non-negative, the most likely example scores 0, and padding is the sentinel |
| Selection.AcquiredMasked | baselines/jft/active_learning.py:277-280 | the scores after the blanking loop: the slot where an ignored id first occurs holds the sentinel, and every other slot keeps its score |
| Selection.AcquiredMaskedNothing | baselines/jft/active_learning.py:277-280 | with no ignored ids the blanking loop leaves the scores unchanged |
| Selection.ForceIgnoredToNegInf | baselines/jft/active_learning.py:277-280 | succeeds exactly when every ignored id occurs in the pool; the array then equals the input with the first slot of each ignored id set to the sentinel |
| Selection.TopPositions | baselines/jft/active_learning.py:286-287 | returns `k` distinct in-range positions, and no position left out scores above any position taken |
| Selection.SelectAcquisitionBatch | baselines/jft/active_learning.py:260-294 | errors in the source's order: an ignored id missing from the pool, then no score above the sentinel, then `k >= len(scores)`; it succeeds exactly when none applies, with `k` ids and scores read position by position from a top-k choice over the blanked scores |
| Selection.TopKAvoidsSentinel | baselines/jft/active_learning.py:280-287 | with at least `k` finite slots, every selected slot is finite: no acquired id and no padding is selected again |
| Selection.TopKReachesFinite | baselines/jft/active_learning.py:282-287 | with a finite slot and `k >= 1`, some selected slot is finite |
| Finetune.Track | baselines/jft/active_learning.py:361-386 | the running best starts at `best_opt_accuracy = -1`, `best_step = 1` and never drops below -1 |
| Finetune.TrackIsMaximum | baselines/jft/active_learning.py:361-386 | the running best is at least -1 and at least every logged accuracy; it is a logged evaluation once the snapshot was taken, and stays `(-1, 1)` otherwise |
| Finetune.TrackPrefersNewer | baselines/jft/active_learning.py:382-386 | because `>=` replaces the best, every evaluation after the best step is strictly worse |
| Finetune.AppendEvalBest | baselines/jft/active_learning.py:382-386 | one more evaluation replaces the best exactly when it is at least as good, and the snapshot exists afterwards exactly when it existed or was just taken |
| Finetune.AppendEvalStops | baselines/jft/active_learning.py:387-390 | one more evaluation leaves the earlier stopping decisions unchanged; the new one stops exactly when it is worse than the best and at least `patience` steps past it |
| Finetune.AppendAligned | baselines/jft/active_learning.py:373-379 | logging the evaluation due next keeps the two logs aligned at steps 5, 10, 15, ... |
| Finetune.AlignedStepsIncrease | baselines/jft/active_learning.py:373-379 | aligned logs are logged at strictly increasing steps |
| Finetune.BestOfLog | baselines/jft/active_learning.py:382-386 | on a log with increasing steps, the best bounds every accuracy and, once the snapshot was taken, was logged, and every later evaluation is strictly worse |
| Finetune.LogEvaluation | baselines/jft/active_learning.py:373-390 | logging the evaluation due at a step keeps the loop's record: the snapshot moves to it exactly when it is at least as good as the best, and it stops the loop exactly when it is worse and `patience` steps past the best |
| Finetune.CadenceCount | baselines/jft/active_learning.py:373 | between the n-th evaluation step and the next, `n` evaluations were due, and a step is an evaluation step exactly when it is a multiple of 5 |
| Finetune.FirstEvalSetsBest | baselines/jft/active_learning.py:361-386 | starting from -1, a first evaluation of at least -1 becomes the best and takes the snapshot |
| Finetune.EvalStepBounds | baselines/jft/active_learning.py:373-386 | a logged step is a positive multiple of 5 within the steps run |
| Finetune.StepLimit | baselines/jft/active_learning.py:367-368 | the `zip` of `range(1, total_steps + 1)` with the training stream runs for the smaller of the two lengths |
| Finetune.NoEarlierCount | baselines/jft/active_learning.py:367-390 | a run that makes `m` evaluations makes no fewer: every earlier evaluation kept the loop going |
| Finetune.EvalCountUnique | baselines/jft/active_learning.py:367-390 | the inputs fix the number of evaluations a run makes |
| Finetune.PeakAtFiveStopsAtTen | baselines/jft/active_learning.py:373-390 | with patience 2, a validation peak at step 5 followed by a worse step 10 gives exactly two evaluations, the stop at step 10, and the step-5 snapshot as the best |
| Finetune.EndOfRun | baselines/jft/active_learning.py:367-390 | the loop's final log is the log the inputs determine, of the evaluation count the inputs determine |
| Finetune.TrainLoop | baselines/jft/active_learning.py:361-390 | the loop's state: at most `min(total_steps, stream length)` steps, every step if not stopped early; aligned logs; best equal to the running best of the validation log; snapshot present exactly when some evaluation reached -1, and equal to the parameters after the best step; a stop only at the first evaluation that meets the stopping condition |
| Finetune.Finetune | baselines/jft/active_learning.py:327-400 | everything `TrainLoop` states, plus: the validation log and its length are those the inputs determine (`ValLog`, `RunsEvals`), the reported best accuracy is the maximum of that log, its step is a logged step, ties go to the newer evaluation, a run shorter than 5 steps leaves the snapshot unassigned, and a run of at least 5 steps whose first validation accuracy is at least -1 (any fraction is) assigns it |
| PreprocessSpec.Split | baselines/jft/active_learning.py:562 | `str.split("\|")` returns at least one piece and no piece contains the separator |
| PreprocessSpec.Join | baselines/jft/active_learning.py:563 | `"\|".join(parts)` of two or more pieces contains the separator |
| PreprocessSpec.JoinEndsWithLast | baselines/jft/active_learning.py:563 | a join ends with its last piece |
| PreprocessSpec.IdPpEval | baselines/jft/active_learning.py:562-563 | the rewritten spec ends with the keep op |
| PreprocessSpec.JoinSplit | baselines/jft/active_learning.py:562-563 | joining the pieces of a split gives back the string |
| PreprocessSpec.SplitJoin | baselines/jft/active_learning.py:562-563 | splitting a join of separator-free pieces gives back the pieces |
| PreprocessSpec.KeepIdIsOneOp | baselines/jft/active_learning.py:560 | the keep op holds no separator |
| PreprocessSpec.IdPpEvalOps | baselines/jft/active_learning.py:560-563 | the rewritten spec holds every op of `pp_eval` but the last, in order, followed by the keep op; a spec without `\|` becomes the keep op alone |
| Controller.NumRepeats | baselines/jft/active_learning.py:724-725 | the epoch count is the least one giving at least `total_steps` batches of `batch_size` from the subset |
| Controller.PoolScores | baselines/jft/active_learning.py:814-845 | the scores respect the mask; an unknown method raises; the density method falls back to uniform on an empty subset; the uniform draw is keyed by the freshly split generator, which is also the state carried on; entropy entries and negated margins pass through; density scores are exactly the density tail over the per-entry log-likelihoods (the largest valid log-likelihood minus the entry's own), and density errs only on a pool without valid entries |
| Controller.FiniteSlotIsFresh | baselines/jft/active_learning.py:847-851 | after blanking the subset, a slot is finite exactly when it is a valid entry whose id is not yet acquired |
| Controller.FreshFiniteCount | baselines/jft/active_learning.py:847-851 | the finite slots plus the acquired ids cover every valid entry |
| Controller.FreshBatchIds | baselines/jft/active_learning.py:847-851 | finite selected slots are valid entries and carry distinct ids, none of them already acquired |
| Controller.SelectionGrowsSubset | baselines/jft/active_learning.py:847-854 | a selection always adds at least one new id; when the pool has `k` unlabelled valid entries it adds exactly `k`, all valid and none acquired before |
| Controller.ValidIsFiniteWhenNothingIgnored | baselines/jft/active_learning.py:674-682 | with nothing ignored, a finite score exists exactly when the pool has a valid entry |
| Controller.SeedSubset | baselines/jft/active_learning.py:674-682 | the seed is the ids of a top-k choice over the uniform draw of the given key, with nothing ignored: `k` pool ids, distinct and valid when the pool has `k` valid entries; it fails exactly when there is no valid entry or `k` is not below the pool length |
| Controller.InitialSubset | baselines/jft/active_learning.py:663-711 | an empty seed when the initial size is not positive; otherwise the top-k choice over the uniform draw keyed by the second half of the first split, at most the initial size of them, exactly that many valid ids with enough pool; the error cases are those of the seed selection; the returned generator state is the one after the seed split and the `rng_loop` and `train_ds_rng` splits |
| Controller.AdoptedParamsUnique | baselines/jft/active_learning.py:719-797 | the inputs fix the parameters a round adopts |
| Controller.RoundParams | baselines/jft/active_learning.py:719-797 | an empty subset keeps the pretrained parameters; a zero batch size raises; otherwise fine-tuning makes the evaluations the inputs determine, the round fails with the unbound-snapshot error exactly when none assigned the snapshot (always when `total_steps < 5`), and otherwise adopts the snapshot at the best (newest among equals) validation step |
| Controller.Acquire | baselines/jft/active_learning.py:847-854 | the ids of a top-k choice over the scores with the subset blanked: `k` pool ids that strictly grow the subset, and with enough pool exactly `k` new valid ids; it errs exactly under the selection's error conditions |
| Controller.ScoreAndAcquire | baselines/jft/active_learning.py:814-854 | the generator state is always the one scoring leaves; it fails exactly when scoring fails (unknown method, density over no valid entry) or the selection raises one of its three errors, and otherwise the batch is the top-k choice over the pool scores of the given parameters with the subset blanked: pool ids that strictly grow the subset, `k` new valid ones with enough pool |
| Controller.PlayRound | baselines/jft/active_learning.py:719-854 | fine-tuning makes the evaluations the inputs determine; the round fails exactly when fine-tuning raises (zero batch size, unassigned snapshot) or scoring and selecting with the adopted parameters fails; otherwise it adopts the parameters fine-tuning determines, logs their test accuracy, and acquires the batch their scores select from the generator state it was given, which strictly grows the subset with pool ids, by `k` new valid ids with enough pool |
| Controller.RoundsPlayedEach | baselines/jft/active_learning.py:711-854 | every logged round was played as the loop body plays it, with the accuracy logged for it: fine-tuning assigned the snapshot, and scoring and selection raised no error |
| Controller.PlayedRoundSucceeds | baselines/jft/active_learning.py:719-854 | a round played as the loop body plays it is not one that fails: fine-tuning, scoring and selection all succeed in it |
| Controller.LoggedRoundsSucceed | baselines/jft/active_learning.py:711-854 | no logged round is one that fails |
| Controller.PlayedAppend | baselines/jft/active_learning.py:799-854 | playing one more round extends the rounds played |
| Controller.LogRound | baselines/jft/active_learning.py:799-854 | appending a round keeps the log consistent: aligned sizes and accuracies, sizes below the cap, strictly growing subsets, each round starting from the subset and generator state the round before left |
| Controller.GrowRound | baselines/jft/active_learning.py:853-854 | a round that adds a full batch keeps the sizes at `init + i * k` |
| Controller.RoundCount | baselines/jft/active_learning.py:711-716 | a loop from `init` in steps of `k` that stops at the cap runs exactly `RoundsNeeded` rounds (ceiling of the gap over `k`, 0 when already at the cap) |
| Controller.FourRoundsToTwenty | baselines/jft/active_learning.py:711-716 | from nothing in batches of 5 with a cap of 20, four rounds |
| Controller.SubsetIds.Update | baselines/jft/active_learning.py:853-854 | the subset becomes the old subset together with the batch |
| Controller.AdvanceState | baselines/jft/active_learning.py:711-854 | a round played from below the cap, from the generator state the log left, keeps the loop state: the log, the seed it starts from, and with enough pool the size schedule and valid ids |
| Controller.StepRound | baselines/jft/active_learning.py:711-854 | one iteration plays the round on the current subset and generator state; it fails exactly when that round fails, and then leaves the subset as it was; otherwise it adds the batch in place, keeping the loop state |
| Controller.LoopFailed | baselines/jft/active_learning.py:711-854 | a round that fails from the loop state ends the run after the logged rounds, which start at the seed and the given generator state |
| Controller.LoopExit | baselines/jft/active_learning.py:711-716 | at the cap, with enough pool, the log holds exactly `RoundsNeeded` rounds |
| Controller.RunRounds | baselines/jft/active_learning.py:711-854 | the loop from a seed: the log starts at the seed and the given generator state, every round is logged as played (so none of them fails), the loop returns once the size reaches the cap (possibly overshooting it by less than a batch) with only pool ids, an unknown method plays no round, and with enough pool the sizes follow `init + i * k` for exactly `RoundsNeeded` rounds; a failure happens only in a round that fails, played below the cap right after the logged rounds from the subset and generator state they left |
| Controller.ActiveLearning | baselines/jft/active_learning.py:663-869 | on success the first round starts from the uniform seed and the generator state after the seed's splits; every round starts below the cap where the one before ended, logs the test accuracy of the parameters it adopted, and grows the subset by the batch those parameters select; a return once the size reaches the cap (possibly overshooting it by less than a batch) with only pool ids; an unknown method with an initial size below the cap always fails; with enough pool, sizes `init + i * k`, exactly `RoundsNeeded` rounds and only valid ids; a run that returns had a seed selection that succeeded and no round that fails; a run fails always when seed selection fails, and otherwise only in a round that fails right after the rounds logged from the seed |

## Behaviour worth knowing

The model follows the code in each of these, though a reader of the script
might expect otherwise:

- Every round fine-tunes from the pretrained optimiser `opt_cpu`
  (`active_learning.py:719`), not from the previous round's parameters.
- Validation runs only at steps that are multiples of 5. A run whose last
  improvement was at step 5, with patience 2, therefore stops at step 10, the
  next evaluation (`Finetune.PeakAtFiveStopsAtTen`).
- An unknown `acquisition_method` raises only when a round reaches its scoring
  step, after fine-tuning. If the initial subset already reaches the cap, no
  round runs and nothing is raised.

## Left out

- Neural-network computation (logits, softmax, entropy, margins, Mahalanobis
  log-likelihoods, gradient updates, `get_accuracy`) enters as opaque
  functions. Floating point, NaN handling and the `jnp.isnan` replacement are
  not modelled. Scores are exact reals with a `-inf` sentinel.
- `np.argpartition` leaves its tie order unspecified. `TopPositions` picks the
  first maximum each pass, and the contracts state only the top-k property that
  every tie order satisfies.
- The training stream is `trainBatches(size, repeats)` batches long. How
  `input_utils.get_data` builds it, shuffles it or drops remainders is not
  modelled.
- The random generator is abstract: `split` and `uniform` are functions.
  - The controller threads `rng` through every split of lines 674-842.
  - `rngs_loop` passes through `finetune` into the opaque update, so it is not
    tracked.
  - `rng_loop` after lines 815 and 842 is never used and is dropped.
- `Controller.ActiveLearning` requires `acquisition_batch_size >= 1`. With 0
  the source selects empty batches and loops forever.
- `Controller.ActiveLearning` requires every valid pool entry to be the first
  entry with its id. Otherwise `ids_list.index` blanks a different slot, an
  acquired example can be selected again, and termination is not guaranteed.
- `Controller.ActiveLearning`: the pool ids and masks are the same in every
  round. In the source they come from one unshuffled pool pipeline, rebuilt
  each round.
- `Controller.NumRepeats`: float rounding in `math.ceil` is not modelled. It
  computes the exact rational ceiling.
- The configuration defaults (`initial_training_set_size` 10,
  `max_training_set_size` 150, `acquisition_batch_size` 10,
  `early_stopping_patience` 15) are applied by the caller of the model.
- Not modelled: logging, `wandb`, printing, dataset downloads, checkpoint
  loading, `jax.device_get` and replication, and the `"384"` to `"224"`
  rewrite of the preprocessing strings.
