/** The rewrite of the evaluation preprocessing spec for the pool set: the
    last `|`-separated op of `pp_eval` is replaced by an op that keeps the
    image, the labels and the example id. */
module PreprocessSpec {

  const Separator: char := '|'

  const KeepId: string := "keep([\"image\", \"labels\", \"id\"])"

  /** Python's `s.split("|")`: the pieces between separators, in order; an
      empty string gives one empty piece. */
  function Split(s: string): (parts: seq<string>)
    ensures |parts| >= 1
    ensures forall k :: 0 <= k < |parts| ==> Separator !in parts[k]
  {
    if |s| == 0 then [""]
    else
      var rest := Split(s[1..]);
      if s[0] == Separator then [""] + rest
      else [[s[0]] + rest[0]] + rest[1..]
  }

  /** Python's `"|".join(parts)`: two or more pieces are separated. */
  function Join(parts: seq<string>): (r: string)
    ensures |parts| >= 2 ==> Separator in r
  {
    if |parts| == 0 then ""
    else if |parts| == 1 then parts[0]
    else
      var r := parts[0] + [Separator] + Join(parts[1..]);
      assert r[|parts[0]|] == Separator;
      r
  }

  /** A join ends with its last piece. */
  lemma {:induction false} JoinEndsWithLast(parts: seq<string>)
    requires |parts| > 0
    ensures |parts[|parts| - 1]| <= |Join(parts)|
    ensures Join(parts)[|Join(parts)| - |parts[|parts| - 1]|..] == parts[|parts| - 1]
  {
    if |parts| > 1 {
      JoinEndsWithLast(parts[1..]);
    }
  }

  /** Lines 562-563: `"|".join(pp_eval.split("|")[:-1] + [keep_id])`; the
      rewritten spec ends with the keep op. */
  function IdPpEval(ppEval: string): (r: string)
    ensures |KeepId| <= |r| && r[|r| - |KeepId|..] == KeepId
  {
    var parts := Split(ppEval);
    var kept := parts[..|parts| - 1] + [KeepId];
    JoinEndsWithLast(kept);
    Join(kept)
  }

  /** Joining the pieces of a split gives back the string. */
  lemma {:induction false} JoinSplit(s: string)
    ensures Join(Split(s)) == s
  {
    if |s| > 0 {
      var rest := Split(s[1..]);
      JoinSplit(s[1..]);
      if s[0] == Separator {
        assert Split(s) == [""] + rest;
        assert Join([""] + rest) == [Separator] + Join(rest) by {
          assert ([""] + rest)[1..] == rest;
        }
        assert [Separator] + s[1..] == s;
      } else {
        var head := [s[0]] + rest[0];
        assert Split(s) == [head] + rest[1..];
        if |rest| == 1 {
          assert Join([head]) == head;
        } else {
          assert Join([head] + rest[1..]) == head + [Separator] + Join(rest[1..]) by {
            assert ([head] + rest[1..])[1..] == rest[1..];
          }
          assert Join(rest) == rest[0] + [Separator] + Join(rest[1..]);
        }
        assert [s[0]] + s[1..] == s;
      }
    }
  }

  /** Splitting a join of separator-free pieces gives back the pieces. */
  lemma {:induction false} SplitJoin(parts: seq<string>)
    requires |parts| >= 1
    requires forall k :: 0 <= k < |parts| ==> Separator !in parts[k]
    ensures Split(Join(parts)) == parts
  {
    if |parts| == 1 {
      SplitPiece(parts[0]);
    } else {
      SplitJoin(parts[1..]);
      SplitPieceThen(parts[0], Join(parts[1..]));
      assert [parts[0]] + parts[1..] == parts;
    }
  }

  /** A separator-free string splits into itself. */
  lemma {:induction false} SplitPiece(p: string)
    requires Separator !in p
    ensures Split(p) == [p]
  {
    if |p| > 0 {
      SplitPiece(p[1..]);
      assert [p[0]] + p[1..] == p;
    }
  }

  /** A separator-free piece followed by a separator and a tail splits into
      the piece followed by the pieces of the tail. */
  lemma {:induction false} SplitPieceThen(p: string, tail: string)
    requires Separator !in p
    ensures Split(p + [Separator] + tail) == [p] + Split(tail)
  {
    if |p| == 0 {
      assert p + [Separator] + tail == [Separator] + tail;
      assert ([Separator] + tail)[1..] == tail;
    } else {
      var s := p + [Separator] + tail;
      assert s[1..] == p[1..] + [Separator] + tail;
      SplitPieceThen(p[1..], tail);
      assert [p[0]] + p[1..] == p;
    }
  }

  lemma KeepIdIsOneOp()
    ensures Separator !in KeepId
  {
    assert forall k :: 0 <= k < |KeepId| ==> KeepId[k] != Separator;
  }

  /** The rewritten spec keeps every op of `pp_eval` but the last, in order,
      and ends with the keep op; a spec without `|` becomes the keep op alone. */
  lemma IdPpEvalOps(ppEval: string)
    ensures Split(IdPpEval(ppEval)) == Split(ppEval)[..|Split(ppEval)| - 1] + [KeepId]
    ensures Separator !in ppEval ==> IdPpEval(ppEval) == KeepId
  {
    var parts := Split(ppEval);
    var kept := parts[..|parts| - 1] + [KeepId];
    KeepIdIsOneOp();
    forall k | 0 <= k < |kept| ensures Separator !in kept[k] {
      if k < |parts| - 1 {
        assert kept[k] == parts[k];
      } else {
        assert kept[k] == KeepId;
      }
    }
    SplitJoin(kept);
    if Separator !in ppEval {
      SplitPiece(ppEval);
      assert kept == [KeepId];
    }
  }
}
