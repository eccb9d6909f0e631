/**
 * Choosing the most specific implementation among surviving candidates,
 * shared by run-time dispatch (src/evaluator.rs) and compile-time
 * specialisation (src/specialization.rs): both sort the candidates by
 * descending score with a stable sort, report an ambiguity when the first
 * two scores are equal, and otherwise take the first.
 */
module Ranking {

  /** A surviving implementation: its position in the list and its score. */
  datatype Candidate = Candidate(index: nat, score: nat)

  datatype Resolution = NoCandidate | Ambiguous | Winner(index: nat)

  predicate IsTop(cands: seq<Candidate>, i: int)
  {
    0 <= i < |cands| && forall j :: 0 <= j < |cands| ==> cands[j].score <= cands[i].score
  }

  /** The highest score among the candidates. */
  function MaxScore(cands: seq<Candidate>): (m: nat)
    requires cands != []
    ensures forall j :: 0 <= j < |cands| ==> cands[j].score <= m
    ensures exists j :: 0 <= j < |cands| && cands[j].score == m
  {
    if |cands| == 1 then cands[0].score
    else
      var rest := MaxScore(cands[1..]);
      assert forall j :: 1 <= j < |cands| ==> cands[j] == cands[1..][j - 1];
      if cands[0].score >= rest then cands[0].score else rest
  }

  /** The position of the first candidate with score `m`. */
  function FirstWithScore(cands: seq<Candidate>, m: nat): (i: nat)
    requires exists j :: 0 <= j < |cands| && cands[j].score == m
    ensures i < |cands| && cands[i].score == m
    ensures forall j :: 0 <= j < i ==> cands[j].score != m
  {
    if cands[0].score == m then 0
    else
      assert exists j :: 0 <= j < |cands[1..]| && cands[1..][j].score == m by {
        var j :| 0 <= j < |cands| && cands[j].score == m;
        assert cands[1..][j - 1].score == m;
      }
      1 + FirstWithScore(cands[1..], m)
  }

  /** The selection that follows candidate collection: with the candidates
      sorted stably by descending score, equal scores in the first two places
      are an ambiguity, and otherwise the first candidate wins. The sorted
      order is not built; the outcome is described directly. */
  function Resolve(cands: seq<Candidate>): (r: Resolution)
    ensures r == NoCandidate <==> cands == []
    ensures r == Ambiguous <==>
      exists i, j :: 0 <= i < j < |cands| && IsTop(cands, i) && cands[j].score == cands[i].score
    ensures r.Winner? ==> exists i :: (IsTop(cands, i) && cands[i].index == r.index &&
      forall j :: 0 <= j < |cands| && j != i ==> cands[j].score < cands[i].score)
  {
    if cands == [] then NoCandidate
    else
      var m := MaxScore(cands);
      var i := FirstWithScore(cands, m);
      if exists j :: i < j < |cands| && cands[j].score == m then Ambiguous
      else Winner(cands[i].index)
  }

  /** The candidate ranking as a single pass over the candidates, keeping
      the best score so far, where it was first seen, and whether it has
      been seen twice. */
  method RankCandidates(cands: seq<Candidate>) returns (r: Resolution)
    ensures r == Resolve(cands)
  {
    if |cands| == 0 {
      return NoCandidate;
    }
    var best, bestScore, tied := 0, cands[0].score, false;
    var i := 1;
    while i < |cands|
      invariant 1 <= i <= |cands|
      invariant IsTop(cands[..i], best)
      invariant bestScore == cands[best].score
      invariant forall j :: 0 <= j < best ==> cands[j].score < bestScore
      invariant tied <==> exists j :: best < j < i && cands[j].score == bestScore
    {
      if cands[i].score > bestScore {
        best, bestScore, tied := i, cands[i].score, false;
      } else if cands[i].score == bestScore {
        tied := true;
      }
      i := i + 1;
    }
    assert cands[..i] == cands;
    if tied {
      r := Ambiguous;
    } else {
      r := Winner(cands[best].index);
    }
    assert MaxScore(cands) == bestScore;
    assert FirstWithScore(cands, bestScore) == best;
  }
}
