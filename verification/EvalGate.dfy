/**
  The scoring gate of internal/eval: Total and Aggregate of score.go, EvaluateBaseline of
  ci_gate.go, in exact arithmetic.
*/
module EvalGate {
  import opened Basics

  const PASS_THRESHOLD := 18
  const WARN_FLOOR := 17

  const DIMS := ["RootCause", "Recommendation", "Evidence", "Hallucination", "Latency"]

  /** A dimension that is missing counts as zero. */
  type ScoreCard = map<string, int>

  function Score(s: ScoreCard, d: string): (r: int) { if d in s then s[d] else 0 }

  // ---- sums ------------------------------------------------------------------------------

  function SumDims(s: ScoreCard, dims: seq<string>): (r: int) {
    if dims == [] then 0 else SumDims(s, dims[..|dims| - 1]) + Score(s, dims[|dims| - 1])
  }

  function TotalOf(s: ScoreCard): (r: int) { SumDims(s, DIMS) }

  function SumDim(scores: seq<ScoreCard>, d: string): (r: int) {
    if scores == [] then 0 else SumDim(scores[..|scores| - 1], d) + Score(scores[|scores| - 1], d)
  }

  function SumTotals(scores: seq<ScoreCard>): (r: int) {
    if scores == [] then 0 else SumTotals(scores[..|scores| - 1]) + TotalOf(scores[|scores| - 1])
  }

  /** The sum over some dimensions of the sums over all scores. */
  function SumOfSums(scores: seq<ScoreCard>, dims: seq<string>): (r: int) {
    if dims == [] then 0 else SumOfSums(scores, dims[..|dims| - 1]) + SumDim(scores, dims[|dims| - 1])
  }

  lemma {:induction false} AddCard(scores: seq<ScoreCard>, s: ScoreCard, dims: seq<string>)
    ensures SumOfSums(scores + [s], dims) == SumOfSums(scores, dims) + SumDims(s, dims)
  {
    if dims != [] {
      AddCard(scores, s, dims[..|dims| - 1]);
      assert (scores + [s])[..|scores|] == scores;
    }
  }

  lemma {:induction false} NoSums(dims: seq<string>)
    ensures SumOfSums([], dims) == 0
  {
    if dims != [] { NoSums(dims[..|dims| - 1]); }
  }

  /** Summing by rows or by columns is the same. */
  lemma {:induction false} Interchange(scores: seq<ScoreCard>)
    ensures SumOfSums(scores, DIMS) == SumTotals(scores)
  {
    if scores == [] {
      NoSums(DIMS);
    } else {
      var front, s := scores[..|scores| - 1], scores[|scores| - 1];
      Interchange(front);
      AddCard(front, s, DIMS);
      assert scores == front + [s];
    }
  }

  // ---- score.go --------------------------------------------------------------------------

  method Total(s: ScoreCard) returns (sum: int)
    ensures sum == TotalOf(s)
  {
    sum := 0;
    for i := 0 to |DIMS|
      invariant sum == SumDims(s, DIMS[..i])
    {
      sum := sum + Score(s, DIMS[i]);
      assert DIMS[..i + 1][..i] == DIMS[..i];
    }
    assert DIMS[..|DIMS|] == DIMS;
  }

  method SumColumn(scores: seq<ScoreCard>, d: string) returns (sum: int)
    ensures sum == SumDim(scores, d)
  {
    sum := 0;
    for j := 0 to |scores|
      invariant sum == SumDim(scores[..j], d)
    {
      sum := sum + Score(scores[j], d);
      assert scores[..j + 1][..j] == scores[..j];
    }
    assert scores[..|scores|] == scores;
  }

  /** A mean for each dimension; all zero when there are no scores. */
  method Aggregate(scores: seq<ScoreCard>) returns (out: map<string, real>)
    ensures forall d :: d in out <==> d in DIMS
    ensures forall d :: d in DIMS ==> d in out && out[d] == MeanOf(SumDim(scores, d), |scores|)
  {
    out := map d | d in DIMS :: 0.0;
    if |scores| == 0 { return; }
    var n := |scores| as real;
    for i := 0 to |DIMS|
      invariant forall d :: d in out <==> d in DIMS
      invariant forall k :: 0 <= k < i ==> out[DIMS[k]] == SumDim(scores, DIMS[k]) as real / n
    {
      var sum := SumColumn(scores, DIMS[i]);
      out := out[DIMS[i] := sum as real / n];
    }
  }

  /** Nothing over nothing is zero. */
  function MeanOf(sum: int, n: nat): (r: real) { if n == 0 then 0.0 else sum as real / n as real }

  function SumMeans(out: map<string, real>, dims: seq<string>): (r: real)
    requires forall k :: 0 <= k < |dims| ==> dims[k] in out
  {
    if dims == [] then 0.0 else SumMeans(out, dims[..|dims| - 1]) + out[dims[|dims| - 1]]
  }

  lemma AddMeans(a: int, b: int, n: nat)
    ensures MeanOf(a, n) + MeanOf(b, n) == MeanOf(a + b, n)
  {
  }

  lemma {:induction false} MeansAddUp(scores: seq<ScoreCard>, out: map<string, real>, dims: seq<string>)
    requires forall k :: 0 <= k < |dims| ==> dims[k] in out && out[dims[k]] == MeanOf(SumDim(scores, dims[k]), |scores|)
    ensures SumMeans(out, dims) == MeanOf(SumOfSums(scores, dims), |scores|)
  {
    if dims != [] {
      var front, d := dims[..|dims| - 1], dims[|dims| - 1];
      MeansAddUp(scores, out, front);
      AddMeans(SumOfSums(scores, front), SumDim(scores, d), |scores|);
    }
  }

  /** The dimension means of Aggregate sum to the mean of Total. */
  lemma DimensionMeans(scores: seq<ScoreCard>, out: map<string, real>)
    requires forall d :: d in DIMS ==> d in out && out[d] == MeanOf(SumDim(scores, d), |scores|)
    ensures SumMeans(out, DIMS) == MeanOf(SumTotals(scores), |scores|)
  {
    MeansAddUp(scores, out, DIMS);
    Interchange(scores);
  }

  // ---- ci_gate.go ------------------------------------------------------------------------

  datatype GateResult = GateResult(
    mean: real, perSample: seq<ScoreCard>, pass: bool, warn: bool, fail: bool, threshold: int)

  /** What diagnosing and judging the samples in turn gives: a card, or an error. */
  type Judged = seq<Option<ScoreCard>>

  /** The cards before the first error. */
  function Cards(judged: Judged): (cards: seq<ScoreCard>)
    ensures |cards| <= |judged|
    ensures forall i :: 0 <= i < |cards| ==> judged[i] == Some(cards[i])
    ensures |cards| < |judged| ==> judged[|cards|].None?
  {
    if judged == [] || judged[0].None? then [] else [judged[0].value] + Cards(judged[1..])
  }

  lemma {:induction false} CardsUpTo(judged: Judged, i: nat, cards: seq<ScoreCard>)
    requires i == |cards| <= |judged| && forall j :: 0 <= j < i ==> judged[j] == Some(cards[j])
    requires i == |judged| || judged[i].None?
    ensures Cards(judged) == cards
  {
    if i > 0 { CardsUpTo(judged[1..], i - 1, cards[1..]); }
  }

  /** The verdict by whole numbers: the sum of the totals against the thresholds times the number of samples. */
  ghost predicate VerdictFits(r: GateResult, sum: int, n: nat) {
    && (r.pass <==> sum >= PASS_THRESHOLD * n)
    && (r.warn <==> WARN_FLOOR * n <= sum < PASS_THRESHOLD * n)
    && (r.fail <==> sum < WARN_FLOOR * n)
  }

  lemma MeanAgainst(sum: int, n: nat, threshold: int)
    requires n > 0
    ensures MeanOf(sum, n) >= threshold as real <==> sum >= threshold * n
  {
    var m, t := MeanOf(sum, n), threshold as real;
    assert m * n as real == sum as real;
    assert (threshold * n) as real == t * n as real;
    if m >= t {
      assert m * n as real >= t * n as real;
    } else {
      assert m * n as real < t * n as real;
    }
  }

  /**
    The gate.  Without an error the verdict is by the mean; an error ends it with a failure, the
    cards so far, and a mean that counts the failing sample as zero.  Exactly one verdict is set.
  */
  method EvaluateBaseline(judged: Judged) returns (r: GateResult, ok: bool)
    ensures r.perSample == Cards(judged) && r.threshold == PASS_THRESHOLD
    ensures ok <==> |Cards(judged)| == |judged|
    ensures if ok then r.mean == MeanOf(SumTotals(r.perSample), |judged|)
            else r.fail && r.mean == MeanOf(SumTotals(r.perSample), |r.perSample| + 1)
    ensures ok && judged != [] ==> VerdictFits(r, SumTotals(r.perSample), |judged|)
    ensures judged == [] ==> r.fail
    ensures (r.pass && !r.warn && !r.fail) || (!r.pass && r.warn && !r.fail) || (!r.pass && !r.warn && r.fail)
  {
    r, ok := GateResult(0.0, [], false, false, false, PASS_THRESHOLD), true;
    if |judged| == 0 {
      r := r.(fail := true);
      return;
    }
    var sum, i := 0, 0;
    while i < |judged|
      invariant 0 <= i <= |judged| && r == GateResult(0.0, r.perSample, false, false, false, PASS_THRESHOLD)
      invariant |r.perSample| == i && forall j :: 0 <= j < i ==> judged[j] == Some(r.perSample[j])
      invariant sum == SumTotals(r.perSample)
    {
      if judged[i].None? {
        CardsUpTo(judged, i, r.perSample);
        r := r.(fail := true, mean := MeanOf(sum, i + 1));
        return r, false;
      }
      var card := judged[i].value;
      var total := Total(card);
      assert (r.perSample + [card])[..i] == r.perSample;
      r := r.(perSample := r.perSample + [card]);
      sum := sum + total;
      i := i + 1;
    }
    CardsUpTo(judged, i, r.perSample);
    MeanAgainst(sum, |judged|, PASS_THRESHOLD);
    MeanAgainst(sum, |judged|, WARN_FLOOR);
    r := r.(mean := MeanOf(sum, |judged|));
    if r.mean >= PASS_THRESHOLD as real {
      r := r.(pass := true);
    } else if r.mean >= WARN_FLOOR as real {
      r := r.(warn := true);
    } else {
      r := r.(fail := true);
    }
  }

  // ---- raising a score never worsens the verdict -----------------------------------------

  function Rank(r: GateResult): (v: int) { if r.pass then 2 else if r.warn then 1 else 0 }

  ghost predicate NoLower(a: seq<ScoreCard>, b: seq<ScoreCard>) {
    |a| == |b| && forall i, d :: 0 <= i < |a| && d in DIMS ==> Score(a[i], d) <= Score(b[i], d)
  }

  lemma {:induction false} NoLowerDims(a: ScoreCard, b: ScoreCard, dims: seq<string>)
    requires forall k :: 0 <= k < |dims| ==> Score(a, dims[k]) <= Score(b, dims[k])
    ensures SumDims(a, dims) <= SumDims(b, dims)
  {
    if dims != [] { NoLowerDims(a, b, dims[..|dims| - 1]); }
  }

  lemma {:induction false} NoLowerTotals(a: seq<ScoreCard>, b: seq<ScoreCard>)
    requires NoLower(a, b)
    ensures SumTotals(a) <= SumTotals(b)
  {
    if a != [] {
      var n := |a| - 1;
      assert forall i, d :: 0 <= i < n && d in DIMS ==> Score(a[..n][i], d) <= Score(b[..n][i], d);
      NoLowerTotals(a[..n], b[..n]);
      forall k | 0 <= k < |DIMS| ensures Score(a[n], DIMS[k]) <= Score(b[n], DIMS[k]) {
        assert DIMS[k] in DIMS;
      }
      NoLowerDims(a[n], b[n], DIMS);
    }
  }

  /**
    Of two runs without errors over as many samples, one with no lower score has no worse verdict and no
    lower mean.
  */
  lemma RaisingNeverWorsens(a: seq<ScoreCard>, b: seq<ScoreCard>, ra: GateResult, rb: GateResult)
    requires a != [] && NoLower(a, b)
    requires VerdictFits(ra, SumTotals(a), |a|) && VerdictFits(rb, SumTotals(b), |b|)
    ensures Rank(ra) <= Rank(rb)
    ensures MeanOf(SumTotals(a), |a|) <= MeanOf(SumTotals(b), |b|)
  {
    NoLowerTotals(a, b);
    Quotients(SumTotals(a), SumTotals(b), |a|);
  }

  lemma Quotients(x: int, y: int, n: nat)
    requires x <= y && n > 0
    ensures MeanOf(x, n) <= MeanOf(y, n)
  {
  }
}
