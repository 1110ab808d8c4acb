/**
 * Confidence arithmetic over `real` (exact, where the source uses floats):
 * weighted combination with clamping, the clarification test, the level bands,
 * the rank-weighted document score and the missing-field penalty.
 */
module Confidence {
  import opened Wrappers
  import opened Text

  /** `max(0.0, min(1.0, x))` */
  function Clamp(x: real): (r: real)
    ensures 0.0 <= r <= 1.0
    ensures 0.0 <= x <= 1.0 ==> r == x
    ensures x < 0.0 ==> r == 0.0
    ensures x > 1.0 ==> r == 1.0
  {
    if 1.0 < x then 1.0 else if x < 0.0 then 0.0 else x
  }

  const DEFAULT_WEIGHTS: map<string, real> := map["classification" := 0.4, "retrieval" := 0.35, "context" := 0.25]

  /** `weights.get(key, default)` */
  function Weight(w: map<string, real>, key: string, default: real): (r: real)
    ensures key in w ==> r == w[key]
    ensures key !in w ==> r == default
  {
    if key in w then w[key] else default
  }

  /** The three scores, each times its weight, summed. */
  function Mix(classification: real, wc: real, retrieval: real, wr: real, context: real, wx: real): real {
    classification * wc + retrieval * wr + context * wx
  }

  /** `calculate_confidence`: `weights` None means the default table; a missing key takes its default. */
  function CalculateConfidence(classification: real, retrieval: real, context: real,
                               weights: Option<map<string, real>>): (r: real)
    ensures 0.0 <= r <= 1.0
    ensures var w := weights.GetOr(DEFAULT_WEIGHTS);
            r == Clamp(Mix(classification, Weight(w, "classification", 0.4), retrieval, Weight(w, "retrieval", 0.35),
                           context, Weight(w, "context", 0.25)))
  {
    var w := weights.GetOr(DEFAULT_WEIGHTS);
    Clamp(Mix(classification, Weight(w, "classification", 0.4), retrieval, Weight(w, "retrieval", 0.35),
              context, Weight(w, "context", 0.25)))
  }

  /** An empty weights dict is not None, but every key then takes its default: the result is the default one. */
  lemma EmptyWeightsAreDefault(classification: real, retrieval: real, context: real)
    ensures CalculateConfidence(classification, retrieval, context, Some(map[]))
            == CalculateConfidence(classification, retrieval, context, None)
  {
    assert Weight(DEFAULT_WEIGHTS, "classification", 0.4) == 0.4;
    assert Weight(DEFAULT_WEIGHTS, "retrieval", 0.35) == 0.35;
    assert Weight(DEFAULT_WEIGHTS, "context", 0.25) == 0.25;
  }

  /** With the default weights (which sum to 1), inputs in [0, 1] give their weighted mean, unclamped. */
  lemma DefaultWeightsNeedNoClamp(classification: real, retrieval: real, context: real)
    requires 0.0 <= classification <= 1.0 && 0.0 <= retrieval <= 1.0 && 0.0 <= context <= 1.0
    ensures CalculateConfidence(classification, retrieval, context, None)
            == 0.4 * classification + 0.35 * retrieval + 0.25 * context
  {
    var s := Mix(classification, 0.4, retrieval, 0.35, context, 0.25);
    assert 0.0 <= s <= 1.0;
  }

  /** `should_clarify` */
  function ShouldClarify(confidence: real, threshold: real, count: int, maxClarifications: int): (r: bool)
    ensures count >= maxClarifications ==> !r
    ensures count < maxClarifications ==> (r <==> confidence < threshold)
  {
    if count >= maxClarifications then false else confidence < threshold
  }

  datatype Level = VeryLow | Low | Medium | High | VeryHigh {
    function Name(): string {
      match this
      case VeryLow => "very_low"
      case Low => "low"
      case Medium => "medium"
      case High => "high"
      case VeryHigh => "very_high"
    }

    function Rank(): nat {
      match this
      case VeryLow => 0
      case Low => 1
      case Medium => 2
      case High => 3
      case VeryHigh => 4
    }
  }

  /** `confidence_to_level`: bands at 0.9, 0.7, 0.5 and 0.3, each lower bound included. */
  function ConfidenceToLevel(confidence: real): (l: Level)
    ensures l == VeryHigh <==> confidence >= 0.9
    ensures l == High <==> 0.7 <= confidence < 0.9
    ensures l == Medium <==> 0.5 <= confidence < 0.7
    ensures l == Low <==> 0.3 <= confidence < 0.5
    ensures l == VeryLow <==> confidence < 0.3
  {
    if confidence >= 0.9 then VeryHigh
    else if confidence >= 0.7 then High
    else if confidence >= 0.5 then Medium
    else if confidence >= 0.3 then Low
    else VeryLow
  }

  /** A higher confidence never gets a lower level. */
  lemma LevelMonotone(c1: real, c2: real)
    requires c1 <= c2
    ensures ConfidenceToLevel(c1).Rank() <= ConfidenceToLevel(c2).Rank()
  {
  }

  // ---------------------------------------------------------------------------
  // aggregate_document_scores

  /** The weight of the document at rank i (0-based): 1 / (i + 1). */
  function RankWeights(n: nat): (ws: seq<real>)
    ensures |ws| == n
    ensures forall i :: 0 <= i < n ==> ws[i] > 0.0
  {
    seq(n, i requires 0 <= i < n => 1.0 / ((i + 1) as real))
  }

  /** Sum of scores[j] * weights[j]. */
  function WeightedSum(scores: seq<real>, weights: seq<real>): real
    requires |scores| == |weights|
  {
    if scores == [] then 0.0 else scores[0] * weights[0] + WeightedSum(scores[1..], weights[1..])
  }

  function Sum(weights: seq<real>): (t: real)
    ensures (forall i :: 0 <= i < |weights| ==> weights[i] > 0.0) && weights != [] ==> t > 0.0
  {
    if weights == [] then 0.0 else weights[0] + Sum(weights[1..])
  }

  /** A positively weighted sum of scores at least lo is at least lo times the total weight. */
  lemma {:induction false} WeightedSumLower(scores: seq<real>, weights: seq<real>, lo: real)
    requires |scores| == |weights|
    requires forall j :: 0 <= j < |scores| ==> lo <= scores[j]
    requires forall j :: 0 <= j < |weights| ==> weights[j] > 0.0
    ensures lo * Sum(weights) <= WeightedSum(scores, weights)
  {
    if scores != [] {
      WeightedSumLower(scores[1..], weights[1..], lo);
      LowerStep(lo, scores[0], weights[0], Sum(weights[1..]), WeightedSum(scores[1..], weights[1..]),
                Sum(weights), WeightedSum(scores, weights));
    }
  }

  /** A positively weighted sum of scores at most hi is at most hi times the total weight. */
  lemma {:induction false} WeightedSumUpper(scores: seq<real>, weights: seq<real>, hi: real)
    requires |scores| == |weights|
    requires forall j :: 0 <= j < |scores| ==> scores[j] <= hi
    requires forall j :: 0 <= j < |weights| ==> weights[j] > 0.0
    ensures WeightedSum(scores, weights) <= hi * Sum(weights)
  {
    if scores != [] {
      WeightedSumUpper(scores[1..], weights[1..], hi);
      UpperStep(hi, scores[0], weights[0], Sum(weights[1..]), WeightedSum(scores[1..], weights[1..]),
                Sum(weights), WeightedSum(scores, weights));
    }
  }

  /** One more weighted score keeps the lower bound: the inductive step of `WeightedSumLower`. */
  lemma LowerStep(lo: real, a: real, w: real, rest: real, s: real, total: real, ws: real)
    requires lo <= a && w > 0.0 && lo * rest <= s
    requires total == w + rest && ws == a * w + s
    ensures lo * total <= ws
  {
    ScaleMonotone(lo, a, w);
    ScaleSum(lo, w, rest);
  }

  /** One more weighted score keeps the upper bound: the inductive step of `WeightedSumUpper`. */
  lemma UpperStep(hi: real, a: real, w: real, rest: real, s: real, total: real, ws: real)
    requires a <= hi && w > 0.0 && s <= hi * rest
    requires total == w + rest && ws == a * w + s
    ensures ws <= hi * total
  {
    ScaleMonotone(a, hi, w);
    ScaleSum(hi, w, rest);
  }

  lemma ScaleMonotone(a: real, b: real, w: real)
    requires a <= b && w > 0.0
    ensures a * w <= b * w
  {
    assert b * w - a * w == (b - a) * w;
  }

  lemma ScaleSum(x: real, w: real, rest: real)
    ensures x * (w + rest) == x * w + x * rest
  {
  }

  /** Each document's "score" key, read as 0.0 when absent. */
  function Scores(documents: seq<Option<real>>): (scores: seq<real>)
    ensures |scores| == |documents|
    ensures forall i :: 0 <= i < |documents| ==> scores[i] == documents[i].GetOr(0.0)
  {
    seq(|documents|, i requires 0 <= i < |documents| => documents[i].GetOr(0.0))
  }

  /** `aggregate_document_scores`: the mean of the scores weighted by 1 / (rank + 1). */
  function AggregateDocumentScores(documents: seq<Option<real>>): (r: real)
    ensures documents == [] ==> r == 0.0
  {
    if documents == [] then 0.0
    else WeightedSum(Scores(documents), RankWeights(|documents|)) / Sum(RankWeights(|documents|))
  }

  /** The aggregate of a non-empty list lies between its smallest and largest score. */
  lemma AggregateWithinBounds(documents: seq<Option<real>>, lo: real, hi: real)
    requires documents != []
    requires forall i :: 0 <= i < |documents| ==> lo <= documents[i].GetOr(0.0) <= hi
    ensures lo <= AggregateDocumentScores(documents) <= hi
  {
    var scores, ws := Scores(documents), RankWeights(|documents|);
    var s, t := WeightedSum(scores, ws), Sum(ws);
    assert lo * t <= s by {
      WeightedSumLower(scores, ws, lo);
    }
    assert s <= hi * t by {
      WeightedSumUpper(scores, ws, hi);
    }
    DivideBounds(lo, hi, s, t);
  }

  lemma DivideBounds(lo: real, hi: real, s: real, t: real)
    requires t > 0.0 && lo * t <= s <= hi * t
    ensures lo <= s / t <= hi
  {
    assert s / t * t == s;
  }

  // ---------------------------------------------------------------------------
  // missing_fields_penalty

  const CRITICAL_FIELDS: seq<string> := ["date", "location", "amount", "party"]

  predicate IsCritical(field: string) {
    exists c :: c in CRITICAL_FIELDS && Contains(Lower(field), c)
  }

  function CriticalCount(fields: seq<string>): (n: nat)
    ensures n <= |fields|
  {
    if fields == [] then 0 else (if IsCritical(fields[0]) then 1 else 0) + CriticalCount(fields[1..])
  }

  /** `missing_fields_penalty`: 0.1 per field capped at 0.5, plus 0.05 per critical field, capped again. */
  function MissingFieldsPenalty(fields: seq<string>): (p: real)
    ensures 0.0 <= p <= 0.5
    ensures p == 0.0 <==> fields == []
  {
    if fields == [] then 0.0
    else
      var base := if 0.5 < |fields| as real * 0.1 then 0.5 else |fields| as real * 0.1;
      var total := base + CriticalCount(fields) as real * 0.05;
      if 0.5 < total then 0.5 else total
  }
}
