/** Acquisition scores and the final, element-wise step of every scoring
    function: entries whose validity mask is false (batch padding) become the
    sentinel NINF_SCORE, valid entries keep the value computed for them.
    The numerics that produce the raw per-example values (softmax, entropy,
    the margin between the two largest probabilities, class-conditional
    Mahalanobis log-likelihoods, uniform draws) are inputs here. */
module Scores {
  import opened Common

  /** A score: a finite real, or the `float("-inf")` sentinel NINF_SCORE. */
  datatype Score = NegInf | Finite(value: real)

  /** `a <= b` on the extended reals. */
  predicate AtMost(a: Score, b: Score) {
    a.NegInf? || (b.Finite? && a.value <= b.value)
  }

  /** Exactly the invalid entries hold the sentinel. */
  predicate RespectsMask(scores: seq<Score>, masks: seq<bool>) {
    && |scores| == |masks|
    && forall i :: 0 <= i < |scores| ==> (scores[i].NegInf? <==> !masks[i])
  }

  /** `jnp.where(masks, values, NINF_SCORE)`. */
  function Where(masks: seq<bool>, values: seq<real>): (r: seq<Score>)
    requires |values| == |masks|
    ensures RespectsMask(r, masks)
    ensures forall i :: 0 <= i < |r| && masks[i] ==> r[i].value == values[i]
  {
    seq(|masks|, i requires 0 <= i < |masks| => if masks[i] then Finite(values[i]) else NegInf)
  }

  /** Tail of `get_entropy_scores`: `entropies[i]` is the predictive entropy
      of example i in nats, NaN terms already replaced by zero. */
  function EntropyScores(entropies: seq<real>, masks: seq<bool>): (r: seq<Score>)
    requires |entropies| == |masks|
    ensures RespectsMask(r, masks)
    ensures forall i :: 0 <= i < |r| && masks[i] ==> r[i].value == entropies[i]
  {
    Where(masks, entropies)
  }

  /** Tail of `get_margin_scores`: `margins[i]` is the top-1 minus the top-2
      softmax probability of example i; the score is the negated margin, so
      the more ambiguous example ranks higher. */
  function MarginScores(margins: seq<real>, masks: seq<bool>): (r: seq<Score>)
    requires |margins| == |masks|
    ensures RespectsMask(r, masks)
    ensures forall i :: 0 <= i < |r| && masks[i] ==> r[i].value == -margins[i]
    ensures forall i, j :: 0 <= i < |r| && 0 <= j < |r| && masks[i] && masks[j] && margins[i] <= margins[j] ==>
      AtMost(r[j], r[i])
  {
    Where(masks, seq(|margins|, i requires 0 <= i < |margins| => -margins[i]))
  }

  /** `get_uniform_scores`: one draw per entry from the generator keyed by
      `key` (`draw(key, i)` stands for element i of
      `jax.random.uniform(key, masks.shape)`), padding forced to the sentinel. */
  function UniformScores<K>(masks: seq<bool>, key: K, draw: (K, nat) -> real): (r: seq<Score>)
    ensures RespectsMask(r, masks)
    ensures forall i :: 0 <= i < |r| && masks[i] ==> r[i].value == draw(key, i)
  {
    Where(masks, seq(|masks|, i requires 0 <= i < |masks| => draw(key, i)))
  }

  /** The largest `raw[i]` over the valid entries, or None when no entry is
      valid (where numpy's `.max()` of an empty selection raises). */
  function MaxValid(raw: seq<real>, masks: seq<bool>): (m: Option<real>)
    requires |raw| == |masks|
    ensures m.None? <==> forall i :: 0 <= i < |masks| ==> !masks[i]
    ensures m.Some? ==> forall i :: 0 <= i < |raw| && masks[i] ==> raw[i] <= m.value
    ensures m.Some? ==> exists i :: 0 <= i < |raw| && masks[i] && raw[i] == m.value
  {
    if |raw| == 0 then None
    else
      var rest := MaxValid(raw[1..], masks[1..]);
      if !masks[0] then rest
      else if rest.None? || rest.value <= raw[0] then Some(raw[0])
      else rest
  }

  /** Tail of `get_density_scores`: `logLikelihoods[i]` is the log-sum-exp of
      the negated half Mahalanobis distances of pool example i to the class
      means. Valid entries become `max(valid) - logLikelihood`; None when
      the pool has no valid entry. */
  function DensityScores(logLikelihoods: seq<real>, masks: seq<bool>): (r: Option<seq<Score>>)
    requires |logLikelihoods| == |masks|
    ensures r.None? <==> forall i :: 0 <= i < |masks| ==> !masks[i]
    ensures r.Some? ==> RespectsMask(r.value, masks)
    // each valid entry is the gap between the largest valid log-likelihood and its own
    ensures r.Some? ==> forall i :: 0 <= i < |masks| && masks[i] ==>
      r.value[i] == Finite(MaxValid(logLikelihoods, masks).value - logLikelihoods[i])
    // the least likely example scores highest, and no valid score is negative
    ensures r.Some? ==> forall i, j :: 0 <= i < |masks| && 0 <= j < |masks| && masks[i] && masks[j] ==>
      (logLikelihoods[i] <= logLikelihoods[j] <==> AtMost(r.value[j], r.value[i]))
    ensures r.Some? ==> forall i :: 0 <= i < |masks| && masks[i] ==> r.value[i].value >= 0.0
    // the most likely valid example scores exactly zero
    ensures r.Some? ==> exists i :: 0 <= i < |masks| && masks[i] && r.value[i] == Finite(0.0)
  {
    match MaxValid(logLikelihoods, masks)
    case None => None
    case Some(top) =>
      Some(Where(masks, seq(|masks|, i requires 0 <= i < |masks| => top - logLikelihoods[i])))
  }
}
