/** The selection engine, `select_acquisition_batch_indices`: copy the flat
    score array, overwrite the slot of every previously acquired id with the
    sentinel, then take the positions of the `k` largest scores. */
module Selection {
  import opened Common
  import opened Scores

  datatype SelectionError =
    | IgnoredIdNotInPool  // `ids_list.index(ignored_id)` raises ValueError
    | NoFiniteScore       // `f_ent.min()` of an empty array raises ValueError
    | BatchTooLarge       // `np.argpartition(-scores, k)` with k >= len(scores)

  /** The acquired ids and, position for position, their scores. */
  datatype Batch = Batch(ids: seq<nat>, scores: seq<Score>)

  /** The scores after the loop over `ignored`: the first slot holding each
      ignored id (the one `ids_list.index` finds) holds the sentinel. */
  function AcquiredMasked(scores: seq<Score>, ids: seq<nat>, ignored: set<nat>): (r: seq<Score>)
    requires |ids| == |scores|
    ensures |r| == |scores|
    // the slot where an ignored id first occurs holds the sentinel; every other slot keeps its score
    ensures forall i :: 0 <= i < |r| && ids[i] in ignored && ids[i] !in ids[..i] ==> r[i] == NegInf
    ensures forall i :: 0 <= i < |r| && (ids[i] !in ignored || ids[i] in ids[..i]) ==> r[i] == scores[i]
  {
    var r := seq(|scores|, i requires 0 <= i < |scores| =>
      if ids[i] in ignored && FirstIndex(ids, ids[i]) == Some(i) then NegInf else scores[i]);
    assert forall i :: 0 <= i < |r| ==> (FirstIndex(ids, ids[i]) == Some(i) <==> ids[i] !in ids[..i]) by {
      forall i | 0 <= i < |r| ensures FirstIndex(ids, ids[i]) == Some(i) <==> ids[i] !in ids[..i] {
        if ids[i] !in ids[..i] {
          assert FirstIndex(ids, ids[i]).value >= i;
        }
      }
    }
    r
  }

  predicate AllInPool(ignored: set<nat>, ids: seq<nat>) {
    forall x :: x in ignored ==> x in ids
  }

  predicate HasFinite(s: seq<Score>) {
    exists i :: 0 <= i < |s| && s[i].Finite?
  }

  /** `pos` holds `k` distinct positions of `s` and none of the positions
      left out scores above any position taken. */
  predicate IsTopK(s: seq<Score>, pos: seq<nat>, k: nat) {
    && |pos| == k
    && Distinct(pos)
    && (forall t :: 0 <= t < |pos| ==> pos[t] < |s|)
    && (forall t, j :: 0 <= t < |pos| && 0 <= j < |s| && j !in pos ==> AtMost(s[j], s[pos[t]]))
  }

  /** `batch` is the ids, in order, of `k` top-scoring positions of `s`. */
  ghost predicate TopKBatch(s: seq<Score>, ids: seq<nat>, k: nat, batch: seq<nat>) {
    && |ids| == |s|
    && exists pos :: IsTopK(s, pos, k) && |batch| == k && forall t :: 0 <= t < k ==> batch[t] == ids[pos[t]]
  }

  /** With nothing ignored the blanking loop leaves the scores as they are. */
  lemma {:induction false} AcquiredMaskedNothing(scores: seq<Score>, ids: seq<nat>)
    requires |ids| == |scores|
    ensures AcquiredMasked(scores, ids, {}) == scores
  {
    var masked := AcquiredMasked(scores, ids, {});
    assert forall i :: 0 <= i < |scores| ==> masked[i] == scores[i];
  }

  /** The loop of lines 279-280, on the copied score array. */
  method ForceIgnoredToNegInf(a: array<Score>, ids: seq<nat>, ignored: set<nat>) returns (ok: bool)
    requires a.Length == |ids|
    modifies a
    ensures ok <==> AllInPool(ignored, ids)
    ensures ok ==> a[..] == AcquiredMasked(old(a[..]), ids, ignored)
  {
    var left := ignored;
    while left != {}
      invariant left <= ignored
      invariant forall x :: x in ignored - left ==> x in ids
      invariant forall i :: 0 <= i < a.Length ==>
        a[i] == if ids[i] in ignored - left && FirstIndex(ids, ids[i]) == Some(i) then NegInf else old(a[i])
      decreases left
    {
      var x :| x in left;
      var at := FirstIndex(ids, x);
      if at.None? {
        return false;
      }
      a[at.value] := NegInf;
      left := left - {x};
    }
    return true;
  }

  /** The first `k` entries of `argpartition(-scores, k)`: positions of the
      `k` largest scores, each round taking the first largest one not yet
      taken. */
  method TopPositions(a: array<Score>, k: nat) returns (pos: seq<nat>)
    requires k <= a.Length
    ensures IsTopK(a[..], pos, k)
  {
    pos := [];
    var taken := seq(a.Length, _ => false);
    while |pos| < k
      invariant |pos| <= k && |taken| == a.Length
      invariant forall t :: 0 <= t < |pos| ==> pos[t] < a.Length
      invariant forall j :: 0 <= j < a.Length ==> (taken[j] <==> j in pos)
      invariant Distinct(pos)
      invariant forall t, j :: 0 <= t < |pos| && 0 <= j < a.Length && !taken[j] ==> AtMost(a[j], a[pos[t]])
    {
      PositionLeftOut(pos, a.Length);
      var best := -1;
      var j := 0;
      while j < a.Length
        invariant 0 <= j <= a.Length && -1 <= best < j
        invariant best >= 0 ==> !taken[best]
        invariant best >= 0 ==> forall i :: 0 <= i < j && !taken[i] ==> AtMost(a[i], a[best])
        invariant best == -1 ==> forall i :: 0 <= i < j ==> taken[i]
      {
        if !taken[j] && (best == -1 || !AtMost(a[j], a[best])) {
          best := j;
        }
        j := j + 1;
      }
      pos := pos + [best];
      taken := taken[best := true];
    }
  }

  /** `select_acquisition_batch_indices`. `positions` are the chosen slots
      (`top_scorers`). */
  method SelectAcquisitionBatch(k: nat, scores: seq<Score>, ids: seq<nat>, ignored: set<nat>)
    returns (r: Result<Batch, SelectionError>, positions: seq<nat>)
    requires |ids| == |scores|
    ensures !AllInPool(ignored, ids) ==> r == Err(IgnoredIdNotInPool)
    ensures AllInPool(ignored, ids) && !HasFinite(AcquiredMasked(scores, ids, ignored)) ==>
      r == Err(NoFiniteScore)
    ensures AllInPool(ignored, ids) && HasFinite(AcquiredMasked(scores, ids, ignored)) && k >= |scores| ==>
      r == Err(BatchTooLarge)
    ensures r.Ok? <==> AllInPool(ignored, ids) && HasFinite(AcquiredMasked(scores, ids, ignored)) && k < |scores|
    ensures r.Ok? ==> IsTopK(AcquiredMasked(scores, ids, ignored), positions, k)
    ensures r.Ok? ==> |r.value.ids| == k && |r.value.scores| == k
    ensures r.Ok? ==> forall t :: 0 <= t < k ==>
      r.value.ids[t] == ids[positions[t]] && r.value.scores[t] == AcquiredMasked(scores, ids, ignored)[positions[t]]
    ensures r.Ok? ==> TopKBatch(AcquiredMasked(scores, ids, ignored), ids, k, r.value.ids)
  {
    positions := [];
    var a := new Score[|scores|](i requires 0 <= i < |scores| => scores[i]);
    assert a[..] == scores;
    var ok := ForceIgnoredToNegInf(a, ids, ignored);
    if !ok {
      return Err(IgnoredIdNotInPool), [];
    }
    var anyFinite := exists i :: 0 <= i < a.Length && a[i].Finite?;
    if !anyFinite {
      return Err(NoFiniteScore), [];
    }
    if k >= a.Length {
      return Err(BatchTooLarge), [];
    }
    positions := TopPositions(a, k);
    var masked := a[..];
    var topIds := seq(k, t requires 0 <= t < k => ids[positions[t]]);
    var topScores := seq(k, t requires 0 <= t < k => masked[positions[t]]);
    r := Ok(Batch(topIds, topScores));
  }

  /** When at least `k` slots score above the sentinel, every selected slot
      does: no previously acquired id and no padding entry is acquired. */
  lemma TopKAvoidsSentinel(s: seq<Score>, pos: seq<nat>, k: nat)
    requires IsTopK(s, pos, k)
    requires |set i: nat | i < |s| && s[i].Finite?| >= k
    ensures forall t :: 0 <= t < k ==> s[pos[t]].Finite?
  {
    forall t | 0 <= t < k ensures s[pos[t]].Finite? {
      if s[pos[t]].NegInf? {
        SentinelSelectedBound(s, pos, k, t);
        assert false;
      }
    }
  }

  /** If a selected slot holds the sentinel, every finite slot is among the
      other k - 1 selected ones. */
  lemma SentinelSelectedBound(s: seq<Score>, pos: seq<nat>, k: nat, t: nat)
    requires IsTopK(s, pos, k) && t < k && s[pos[t]].NegInf?
    ensures |set i: nat | i < |s| && s[i].Finite?| <= k - 1
  {
    var finite := set i: nat | i < |s| && s[i].Finite?;
    var others: set<nat> := (set x: nat | x in pos) - {pos[t]};
    DistinctCard<nat>(pos);
    assert |others| == k - 1;
    forall j | j in finite ensures j in others {
      assert s[j].Finite? && !AtMost(s[j], s[pos[t]]);
    }
    SubsetCard(finite, others);
  }

  /** With at least one finite score and `k >= 1`, some selected slot is finite. */
  lemma TopKReachesFinite(s: seq<Score>, pos: seq<nat>, k: nat)
    requires IsTopK(s, pos, k) && HasFinite(s) && k >= 1
    ensures exists t :: 0 <= t < k && s[pos[t]].Finite?
  {
    var j :| 0 <= j < |s| && s[j].Finite?;
    if j !in pos {
      assert AtMost(s[j], s[pos[0]]);
    }
  }
}
