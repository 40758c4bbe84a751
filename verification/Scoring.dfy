/** Rule scores, profile hints, the optional model score and the route they lead to
    (app/triage/handlers/rule_score.py, profile_hint.py, llm_assist.py, router.py and
    app/triage/scoring). Scores are exact reals, rounded to hundredths as the code does. */
module Scoring {
  import opened Wrappers

  datatype Route = ArchiveLowRisk | ArchiveWhitelist | ArchiveDedup | QueueDeepReview | QueueUncertain | SampleAudit
  datatype Criticality = Critical | High | Medium | Low

  /** `filter` lists the predicted routes for which the model is asked (empty for all), in lower case. */
  datatype Config = Config(
    deep: real, low: real, bandLow: real, bandHigh: real,
    hintCap: real, discountCap: real, weights: map<string, real>,
    llmEnabled: bool, llmWeight: real, filter: set<string>, maxCalls: int)

  // ---- rounding -----------------------------------------------------------

  /** Nearest integer, halves to the even one. */
  function RoundHalfEven(x: real): (n: int)
    ensures n as real - 0.5 <= x <= n as real + 0.5
    ensures x == n as real - 0.5 || x == n as real + 0.5 ==> n % 2 == 0
  {
    var f := x.Floor;
    var rest := x - f as real;
    if rest < 0.5 || (rest == 0.5 && f % 2 == 0) then f else f + 1
  }

  function Round2(x: real): (r: real)
    ensures r - 0.005 <= x <= r + 0.005
  {
    RoundHalfEven(x * 100.0) as real / 100.0
  }

  lemma RoundMonotone(x: real, y: real)
    requires x <= y
    ensures RoundHalfEven(x) <= RoundHalfEven(y)
  {
    if x.Floor == y.Floor {
    } else {
      assert RoundHalfEven(x) <= x.Floor + 1 <= y.Floor <= RoundHalfEven(y);
    }
  }

  lemma Round2Monotone(x: real, y: real)
    requires x <= y
    ensures Round2(x) <= Round2(y)
  {
    RoundMonotone(x * 100.0, y * 100.0);
  }

  /** Whole numbers are fixed by rounding. */
  lemma Round2Whole(n: int)
    ensures Round2(n as real) == n as real
  {
    assert (n as real * 100.0) == (n * 100) as real;
    assert ((n * 100) as real).Floor == n * 100;
  }

  lemma RoundShift(y: real, k: int)
    ensures RoundHalfEven(y - (2 * k) as real) == RoundHalfEven(y) - 2 * k
  {
    assert (y - (2 * k) as real).Floor == y.Floor - 2 * k;
  }

  lemma Round2Shift(x: real, n: int)
    ensures Round2(x - n as real) == Round2(x) - n as real
  {
    RoundShift(x * 100.0, 50 * n);
    assert (x - n as real) * 100.0 == x * 100.0 - (2 * (50 * n)) as real;
  }

  // ---- components ----------------------------------------------------------

  function SeverityScore(severity: int): real {
    match severity case 1 => 20.0 case 2 => 40.0 case 3 => 60.0 case 4 => 80.0 case 5 => 100.0 case _ => 60.0
  }

  function FrequencyScore(count: int): real {
    var s := count as real * 15.0;
    if s < 0.0 then 0.0 else if s > 100.0 then 100.0 else s
  }

  function AssetScore(c: Option<Criticality>): real {
    match c
    case None => 60.0
    case Some(Critical) => 100.0
    case Some(High) => 80.0
    case Some(Medium) => 60.0
    case Some(Low) => 40.0
  }

  function CategoryScore(category: Option<string>, weights: map<string, real>): real {
    var fallback := if "uncategorized" in weights then weights["uncategorized"] else 50.0;
    if category.None? || category.value == "" then fallback
    else if category.value in weights then weights[category.value] else fallback
  }

  // ---- profile hints ---------------------------------------------------------

  /** A matched profile; each memory is its confidence and whether it has expired. */
  datatype Profile = Profile(scanner: bool, jumpHost: bool, decommissioned: bool, memories: seq<(real, bool)>)

  function Bonus(memory: (real, bool)): real {
    if memory.1 || memory.0 <= 0.0 then 0.0 else if memory.0 * 5.0 > 5.0 then 5.0 else memory.0 * 5.0
  }

  function MemoryHints(memories: seq<(real, bool)>): (r: real)
    ensures r >= 0.0
  {
    if memories == [] then 0.0 else MemoryHints(memories[..|memories| - 1]) + Bonus(memories[|memories| - 1])
  }

  function FlagHints(p: Profile): real {
    (if p.scanner then 8.0 else 0.0) + (if p.jumpHost then 5.0 else 0.0) + (if p.decommissioned then 10.0 else 0.0)
  }

  function ProfileHints(profiles: seq<Option<Profile>>): (r: real)
    ensures r >= 0.0
  {
    if profiles == [] then 0.0 else
    var p := profiles[|profiles| - 1];
    ProfileHints(profiles[..|profiles| - 1]) +
      (if p.None? then 0.0 else FlagHints(p.value) + MemoryHints(p.value.memories))
  }

  /** `knowledge` tells, item by item, whether an active duty note applies now and matches the alert. */
  function HintScore(profiles: seq<Option<Profile>>, knowledge: seq<bool>, cap: real): real {
    var raw := ProfileHints(profiles) + (if true in knowledge then 5.0 else 0.0);
    if raw < cap then raw else cap
  }

  // ---- the rule score ----------------------------------------------------------

  function Weigh(severity: real, frequency: real, asset: real, category: real): real {
    severity * 0.4 + frequency * 0.3 + asset * 0.2 + category * 0.1
  }

  function Discount(hint: real, cap: real): real {
    if hint * 0.3 < cap then hint * 0.3 else cap
  }

  function Discounted(raw: real, hint: real, cap: real): real {
    if raw - Discount(hint, cap) > 0.0 then raw - Discount(hint, cap) else 0.0
  }

  function RuleScore(severity: int, count: int, asset: Option<Criticality>, category: real, hint: real,
    cap: real): real {
    Round2(Discounted(Weigh(SeverityScore(severity), FrequencyScore(count), AssetScore(asset), category), hint, cap))
  }

  function Blend(rule: real, llm: real, weight: real): real {
    Round2(rule * (1.0 - weight) + llm * weight)
  }

  // ---- routing ------------------------------------------------------------------

  function RouteFor(score: real, cfg: Config, sampled: bool): Route {
    if score >= cfg.deep then QueueDeepReview
    else if cfg.bandLow <= score < cfg.bandHigh then QueueUncertain
    else if score < cfg.low then (if sampled then SampleAudit else ArchiveLowRisk)
    else QueueUncertain
  }

  function PredictRoute(score: real, cfg: Config): Route {
    if score >= cfg.deep then QueueDeepReview
    else if cfg.bandLow <= score < cfg.bandHigh then QueueUncertain
    else if score < cfg.low then ArchiveLowRisk
    else QueueUncertain
  }

  predicate IsQueue(r: Route) {
    r.QueueDeepReview? || r.QueueUncertain?
  }

  /** The prediction is the route, except that a low-risk alert may be drawn for audit. */
  lemma PredictionAgrees(score: real, cfg: Config, sampled: bool)
    ensures RouteFor(score, cfg, sampled) == PredictRoute(score, cfg) ||
      (PredictRoute(score, cfg) == ArchiveLowRisk && sampled && RouteFor(score, cfg, sampled) == SampleAudit)
    ensures IsQueue(RouteFor(score, cfg, sampled)) <==> IsQueue(PredictRoute(score, cfg))
  {
  }

  /** The region of every route. The thresholds need not be in order: deep review comes first, then the
      uncertain band, then low risk, where the draw decides; whatever is left is uncertain. */
  lemma RouteRegions(score: real, cfg: Config, sampled: bool)
    ensures var r, banded := RouteFor(score, cfg, sampled), cfg.bandLow <= score && score < cfg.bandHigh;
      && (r.QueueDeepReview? <==> score >= cfg.deep)
      && (r.QueueUncertain? <==> score < cfg.deep && (banded || score >= cfg.low))
      && (r.SampleAudit? <==> score < cfg.deep && !banded && score < cfg.low && sampled)
      && (r.ArchiveLowRisk? <==> score < cfg.deep && !banded && score < cfg.low && !sampled)
  {
  }

  /** A higher score never moves an alert out of the queue exactly when the uncertain band is empty or
      reaches up to the smaller of the two thresholds; a deep review stays one in any case. */
  lemma RouteMonotoneIff(cfg: Config, sampled: bool)
    ensures (forall a: real, b: real :: a <= b && IsQueue(RouteFor(a, cfg, sampled)) ==>
              IsQueue(RouteFor(b, cfg, sampled)))
            <==> cfg.bandHigh <= cfg.bandLow || cfg.low <= cfg.bandHigh || cfg.deep <= cfg.bandHigh
    ensures forall a: real, b: real :: a <= b && RouteFor(a, cfg, sampled).QueueDeepReview? ==>
              RouteFor(b, cfg, sampled).QueueDeepReview?
  {
    if cfg.bandLow < cfg.bandHigh && cfg.bandHigh < cfg.low && cfg.bandHigh < cfg.deep {
      assert IsQueue(RouteFor(cfg.bandLow, cfg, sampled)) && !IsQueue(RouteFor(cfg.bandHigh, cfg, sampled));
    }
  }

  // ---- the model's score -------------------------------------------------------

  function RouteName(r: Route): string {
    match r
    case ArchiveLowRisk => "archive_low_risk"
    case ArchiveWhitelist => "archive_whitelist"
    case ArchiveDedup => "archive_dedup"
    case QueueDeepReview => "queue_deep_review"
    case QueueUncertain => "queue_uncertain"
    case SampleAudit => "sample_audit"
  }

  /** Whether the model is to be asked about a rule score at all. */
  predicate OfInterest(rule: real, cfg: Config) {
    cfg.llmEnabled && (cfg.filter == {} || RouteName(PredictRoute(rule, cfg)) in cfg.filter)
  }

  /** Whether the model may be asked about a rule score after `calls` answered calls in this batch. */
  predicate MayAsk(rule: real, cfg: Config, calls: nat) {
    OfInterest(rule, cfg) && calls < cfg.maxCalls
  }

  /** The model is asked about a score when it is enabled and the filter is empty or names the route the
      score leads to. */
  lemma OfInterestIff(score: real, cfg: Config)
    ensures var banded := cfg.bandLow <= score && score < cfg.bandHigh;
      var name := if score >= cfg.deep then "queue_deep_review"
        else if !banded && score < cfg.low then "archive_low_risk" else "queue_uncertain";
      OfInterest(score, cfg) <==> cfg.llmEnabled && (cfg.filter == {} || name in cfg.filter)
  {
  }

  /** The score obtained, from the cache or by a call that does not fail, and the calls answered by then. */
  function Assist(rule: real, cached: Option<real>, answer: Option<real>, cfg: Config, calls: nat)
    : (Option<real>, nat)
  {
    if !MayAsk(rule, cfg, calls) then (None, calls)
    else if cached.Some? then (cached, calls)
    else if answer.Some? then (answer, calls + 1)
    else (None, calls)
  }

  // ---- closed forms -------------------------------------------------------------------

  /** What the asset adds to a score: 8, 12, 16 or 20 points by its criticality, 12 when it is unknown. */
  function AssetPoints(c: Option<Criticality>): int {
    match c case None => 12 case Some(Low) => 8 case Some(Medium) => 12 case Some(High) => 16 case Some(Critical) => 20
  }

  /** The score in points: 8 for each step of severity, 4.5 for each occurrence up to 30, those of the
      asset, and a tenth of the category's weight, less 0.3 for each point of hints up to the cap. */
  lemma RuleScoreInPoints(severity: int, count: nat, asset: Option<Criticality>, category: real, hint: real, cap: real)
    ensures var step := if 1 <= severity <= 5 then severity else 3;
      var occurrences := if count <= 6 then count as real * 4.5 else 30.0;
      var hints := if hint * 0.3 <= cap then hint * 0.3 else cap;
      var points := (8 * step + AssetPoints(asset)) as real + occurrences + category / 10.0 - hints;
      RuleScore(severity, count, asset, category, hint, cap) == Round2(if points >= 0.0 then points else 0.0)
  {
    assert SeverityScore(severity) * 0.4 == (8 * if 1 <= severity <= 5 then severity else 3) as real;
    assert AssetScore(asset) * 0.2 == AssetPoints(asset) as real;
    assert FrequencyScore(count) * 0.3 == if count <= 6 then count as real * 4.5 else 30.0;
  }

  /** A category counts with its weight; a missing, empty or unknown one as uncategorized, which counts 50
      when it has no weight of its own. */
  lemma CategoryWeighed(category: Option<string>, weights: map<string, real>)
    ensures category.Some? && category.value != "" && category.value in weights ==>
      CategoryScore(category, weights) == weights[category.value]
    ensures category.None? || category.value == "" || category.value !in weights ==>
      CategoryScore(category, weights) == if "uncategorized" in weights then weights["uncategorized"] else 50.0
  {
  }

  /** How many of the profiles there are have the property. */
  function CountOf(profiles: seq<Option<Profile>>, property: Profile -> bool): nat {
    if profiles == [] then 0 else
    CountOf(profiles[1..], property) + if profiles[0].Some? && property(profiles[0].value) then 1 else 0
  }

  /** The confidence of the memories that count: those that have not expired, each between 0 and 1. */
  function Confidence(memories: seq<(real, bool)>): real {
    if memories == [] then 0.0 else
    Confidence(memories[1..]) + if memories[0].1 || memories[0].0 <= 0.0 then 0.0
      else if memories[0].0 >= 1.0 then 1.0 else memories[0].0
  }

  function TotalConfidence(profiles: seq<Option<Profile>>): real {
    if profiles == [] then 0.0 else
    TotalConfidence(profiles[1..]) + if profiles[0].Some? then Confidence(profiles[0].value.memories) else 0.0
  }

  lemma {:induction false} MemoryHintsFront(memories: seq<(real, bool)>)
    requires memories != []
    ensures MemoryHints(memories) == Bonus(memories[0]) + MemoryHints(memories[1..])
  {
    var n := |memories| - 1;
    if n > 0 {
      MemoryHintsFront(memories[..n]);
      assert memories[1..][..n - 1] == memories[..n][1..];
    }
  }

  lemma {:induction false} MemoriesInPoints(memories: seq<(real, bool)>)
    ensures MemoryHints(memories) == 5.0 * Confidence(memories)
  {
    if memories != [] {
      MemoryHintsFront(memories);
      MemoriesInPoints(memories[1..]);
    }
  }

  function HintsOf(p: Option<Profile>): real {
    if p.None? then 0.0 else FlagHints(p.value) + MemoryHints(p.value.memories)
  }

  lemma {:induction false} ProfileHintsFront(profiles: seq<Option<Profile>>)
    requires profiles != []
    ensures ProfileHints(profiles) == HintsOf(profiles[0]) + ProfileHints(profiles[1..])
  {
    var n := |profiles| - 1;
    if n > 0 {
      ProfileHintsFront(profiles[..n]);
      assert profiles[1..][..n - 1] == profiles[..n][1..];
    }
  }

  /** The points of the profiles: 8 for each scanner, 5 for each jump host, 10 for each decommissioned
      host, and 5 for each full confidence of a memory. */
  function HintPoints(profiles: seq<Option<Profile>>): real {
    (8 * CountOf(profiles, (p: Profile) => p.scanner) + 5 * CountOf(profiles, (p: Profile) => p.jumpHost)
      + 10 * CountOf(profiles, (p: Profile) => p.decommissioned)) as real + 5.0 * TotalConfidence(profiles)
  }

  lemma {:induction false} HintsInPoints(profiles: seq<Option<Profile>>)
    ensures ProfileHints(profiles) == HintPoints(profiles)
  {
    if profiles != [] {
      ProfileHintsFront(profiles);
      HintsInPoints(profiles[1..]);
      if profiles[0].Some? { MemoriesInPoints(profiles[0].value.memories); }
    }
  }

  /** The hint score is those points, and 5 more for a matching duty note, up to its cap. */
  lemma HintScoreInPoints(profiles: seq<Option<Profile>>, knowledge: seq<bool>, cap: real)
    ensures var noted := exists k :: 0 <= k < |knowledge| && knowledge[k];
      var points := HintPoints(profiles) + (if noted then 5.0 else 0.0);
      HintScore(profiles, knowledge, cap) == if points <= cap then points else cap
  {
    HintsInPoints(profiles);
  }

  /** The blend moves the rule score by the weight towards the model's, to the nearest hundredth. */
  lemma BlendMoves(rule: real, llm: real, weight: real)
    ensures -0.005 <= Blend(rule, llm, weight) - (rule + weight * (llm - rule)) <= 0.005
  {
    assert rule * (1.0 - weight) + llm * weight == rule + weight * (llm - rule);
  }

  // ---- properties of the score -----------------------------------------------------

  /** The score stays in [0, 100] when the category weight does. */
  lemma RuleScoreInRange(severity: int, count: int, asset: Option<Criticality>, category: real, hint: real, cap: real)
    requires 0.0 <= category <= 100.0 && hint >= 0.0 && cap >= 0.0
    ensures 0.0 <= RuleScore(severity, count, asset, category, hint, cap) <= 100.0
  {
    var x := Discounted(Weigh(SeverityScore(severity), FrequencyScore(count), AssetScore(asset), category), hint, cap);
    assert 0.0 <= x <= 100.0;
    Round2Whole(0);
    Round2Whole(100);
    Round2Monotone(0.0, x);
    Round2Monotone(x, 100.0);
  }

  lemma RuleScoreNonNegative(severity: int, count: int, asset: Option<Criticality>, category: real, hint: real,
    cap: real)
    ensures RuleScore(severity, count, asset, category, hint, cap) >= 0.0
  {
    Round2Whole(0);
    Round2Monotone(0.0, Discounted(Weigh(SeverityScore(severity), FrequencyScore(count), AssetScore(asset),
      category), hint, cap));
  }

  /** More severe, more frequent, more critical and riskier never scores lower; more hints never score higher. */
  lemma RuleScoreMonotone(s1: int, s2: int, c1: int, c2: int, a1: Option<Criticality>, a2: Option<Criticality>,
                          w1: real, w2: real, h1: real, h2: real, cap: real)
    requires 1 <= s1 <= s2 <= 5 && c1 <= c2 && AssetScore(a1) <= AssetScore(a2) && w1 <= w2 && h2 <= h1
    ensures RuleScore(s1, c1, a1, w1, h1, cap) <= RuleScore(s2, c2, a2, w2, h2, cap)
  {
    var r1 := Weigh(SeverityScore(s1), FrequencyScore(c1), AssetScore(a1), w1);
    var r2 := Weigh(SeverityScore(s2), FrequencyScore(c2), AssetScore(a2), w2);
    assert SeverityScore(s1) <= SeverityScore(s2) && FrequencyScore(c1) <= FrequencyScore(c2);
    assert r1 <= r2;
    Round2Monotone(Discounted(r1, h1, cap), Discounted(r2, h2, cap));
  }

  /** Profile hints never raise a score, and lower it by at most a whole cap, even after rounding. */
  lemma HintsLowerByAtMostCap(severity: int, count: int, asset: Option<Criticality>, category: real, hint: real,
    cap: nat)
    requires hint >= 0.0
    ensures var plain, hinted := RuleScore(severity, count, asset, category, 0.0, cap as real),
      RuleScore(severity, count, asset, category, hint, cap as real);
      plain - cap as real <= hinted <= plain
  {
    var raw := Weigh(SeverityScore(severity), FrequencyScore(count), AssetScore(asset), category);
    var plain, hinted := Discounted(raw, 0.0, cap as real), Discounted(raw, hint, cap as real);
    Round2Monotone(hinted, plain);
    Round2Shift(plain, cap);
    Round2Monotone(plain - cap as real, hinted);
  }

  /** The shipped thresholds. */
  predicate DefaultThresholds(cfg: Config) {
    cfg.deep == 70.0 && cfg.low == 30.0 && cfg.bandLow == 30.0 && cfg.bandHigh == 70.0 && cfg.hintCap == 20.0 &&
      cfg.discountCap == 6.0
  }

  /** With the shipped thresholds, no model score and at least one occurrence, an alert is queued
      whatever its asset, category and hints exactly when its severity is neither 1 nor 2. */
  lemma QueuedWhateverElseIffSevere(severity: int, cfg: Config)
    requires DefaultThresholds(cfg)
    ensures (forall count: int, asset, category: real, hint: real, sampled ::
               count >= 1 && category >= 0.0 && 0.0 <= hint <= cfg.hintCap ==>
               IsQueue(RouteFor(RuleScore(severity, count, asset, category, hint, cfg.discountCap), cfg, sampled)))
            <==> severity != 1 && severity != 2
  {
    if severity == 1 || severity == 2 {
      var raw := Weigh(SeverityScore(severity), FrequencyScore(1), AssetScore(Some(Low)), 35.0);
      assert raw <= 32.0 && Discount(20.0, 6.0) == 6.0 && Discounted(raw, 20.0, 6.0) <= 26.0;
      Round2Whole(26);
      Round2Monotone(Discounted(raw, 20.0, 6.0), 26.0);
      assert !IsQueue(RouteFor(RuleScore(severity, 1, Some(Low), 35.0, 20.0, cfg.discountCap), cfg, false));
    } else {
      forall count: int, asset, category: real, hint: real, sampled | count >= 1 && category >= 0.0 &&
        0.0 <= hint <= cfg.hintCap
        ensures IsQueue(RouteFor(RuleScore(severity, count, asset, category, hint, cfg.discountCap), cfg, sampled))
      {
        var raw := Weigh(SeverityScore(severity), FrequencyScore(count), AssetScore(asset), category);
        assert raw >= 36.5;
        Round2Whole(30);
        Round2Monotone(30.0, Discounted(raw, hint, cfg.discountCap));
      }
    }
  }

  /** Blending keeps a score in range for a weight in [0, 1]. */
  lemma BlendInRange(rule: real, llm: real, weight: real)
    requires 0.0 <= rule <= 100.0 && 0.0 <= llm <= 100.0 && 0.0 <= weight <= 1.0
    ensures 0.0 <= Blend(rule, llm, weight) <= 100.0
  {
    var x := rule * (1.0 - weight) + llm * weight;
    MulNonNegative(rule, 1.0 - weight);
    MulNonNegative(llm, weight);
    MulNonNegative(100.0 - rule, 1.0 - weight);
    MulNonNegative(100.0 - llm, weight);
    assert 100.0 - x == (100.0 - rule) * (1.0 - weight) + (100.0 - llm) * weight;
    Round2Whole(0);
    Round2Whole(100);
    Round2Monotone(0.0, x);
    Round2Monotone(x, 100.0);
  }

  lemma MulNonNegative(a: real, b: real)
    requires a >= 0.0 && b >= 0.0
    ensures a * b >= 0.0
  {
  }
}
