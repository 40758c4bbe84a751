/** Submitted conclusions (app/agent/conclusion.py) and the evidence gate they must pass
    (app/agent/closure_evaluator.py). */
module Closure {
  import opened Wrappers

  datatype Verdict = AttackConfirmed | LikelyFalsePositive | InsufficientInformation | NeedsHumanReview

  predicate NeedsHuman(v: Verdict) {
    v.InsufficientInformation? || v.NeedsHumanReview?
  }

  // ---- conclusions --------------------------------------------------------

  datatype Conclusion = Conclusion(verdict: Verdict, confidence: real, action: Option<string>, query: Option<string>)

  /** The arguments of a submit_conclusion call. Verdict and confidence are None when missing or of the
      wrong form, action and query when missing; the flags tell whether the other fields have their form:
      risk level and reasoning, the optional texts, the lists, and the suggested assets. */
  datatype Submission = Submission(
    verdict: Option<Verdict>, confidence: Option<real>, riskLevel: bool, reasoning: bool,
    action: Option<string>, query: Option<string>, texts: bool, lists: bool, assets: bool)

  /** The submission has the form the validator asks for. */
  predicate WellFormed(s: Submission) {
    && s.verdict.Some? && s.confidence.Some? && 0.0 <= s.confidence.value <= 1.0
    && s.riskLevel && s.reasoning && s.texts && s.lists && s.assets
  }

  /** None stands for the validation error. */
  function ParseConclusion(s: Submission): (r: Option<Conclusion>)
    ensures r.Some? <==>
      WellFormed(s) && (s.verdict == Some(InsufficientInformation) ==> s.query.Some? && s.query != Some(""))
    ensures r.Some? ==>
      Some(r.value.verdict) == s.verdict && Some(r.value.confidence) == s.confidence &&
        r.value.action == s.action && r.value.query == s.query
  {
    if s.verdict.None? || s.confidence.None? || !s.riskLevel || !s.reasoning || !s.texts || !s.lists || !s.assets
      then None
    else if !(0.0 <= s.confidence.value <= 1.0) then None
    else if s.verdict.value.InsufficientInformation? && (s.query.None? || s.query.value == "") then None
    else Some(Conclusion(s.verdict.value, s.confidence.value, s.action, s.query))
  }

  /** The conclusion every aborted investigation falls back to. */
  const Degraded: Conclusion := Conclusion(NeedsHumanReview, 0.0, Some("review by hand"), Some("please confirm"))

  // ---- the gate -------------------------------------------------------------

  datatype Config = Config(
    enabled: bool, minScore: real, minRefutation: real, maxRetries: int,
    requireRefutation: bool, minHints: int)

  const DefaultConfig := Config(true, 0.6, 0.5, 2, true, 1)

  /** The hypothesis template of an SOP. A hint names the skill it needs, if any. */
  datatype Template = Template(required: seq<string>, supporting: seq<Option<string>>, refuting: seq<Option<string>>)

  datatype Result = Result(passed: bool, score: real, refutation: real, missing: seq<string>)

  function Missing(required: seq<string>, called: set<string>): (m: seq<string>)
    ensures |m| <= |required|
    ensures m == [] <==> forall s :: s in required ==> s in called
    ensures forall s :: s in m <==> s in required && s !in called
  {
    if required == [] then [] else
    (if required[0] in called then [] else [required[0]]) + Missing(required[1..], called)
  }

  predicate Tried(hint: Option<string>, called: set<string>) {
    hint.Some? && hint.value in called
  }

  function CountTried(hints: seq<Option<string>>, called: set<string>): (n: nat)
    ensures n <= |hints|
    ensures n == |hints| <==> forall h :: h in hints ==> Tried(h, called)
  {
    if hints == [] then 0 else
    (if Tried(hints[0], called) then 1 else 0) + CountTried(hints[1..], called)
  }

  /** part / whole, where an empty whole counts as fully covered. */
  function Share(part: nat, whole: nat): (r: real)
    requires part <= whole
    ensures 0.0 <= r <= 1.0
    ensures part == whole ==> r == 1.0
    ensures part == 0 < whole ==> r == 0.0
  {
    if whole == 0 then 1.0 else ShareBounds(part, whole); part as real / whole as real
  }

  lemma ShareBounds(part: nat, whole: nat)
    requires part <= whole && whole > 0
    ensures 0.0 <= part as real / whole as real <= 1.0
  {
  }

  lemma ShareMonotone(a: nat, b: nat, whole: nat)
    requires a <= b <= whole
    ensures Share(a, whole) <= Share(b, whole)
  {
    if whole > 0 {
      var w := whole as real;
      assert b as real / w - a as real / w == (b - a) as real / w;
      ShareBounds(b - a, whole);
    }
  }

  function Score(t: Template, called: set<string>): real {
    Weigh(RequiredShare(t.required, called), HintShare(t.supporting, called), HintShare(t.refuting, called))
  }

  function Evaluate(c: Conclusion, called: set<string>, template: Option<Template>, cfg: Config): Result {
    if !cfg.enabled || NeedsHuman(c.verdict) then Result(true, 1.0, 1.0, []) else
    var t := if template.Some? then template.value else Template([], [], []);
    var missing := Missing(t.required, called);
    var attempted := CountTried(t.refuting, called);
    var refutation := HintShare(t.refuting, called);
    var score := Score(t, called);
    var attack := c.verdict.AttackConfirmed? && t.refuting != [];
    var passed :=
      && score >= cfg.minScore
      && missing == []
      && !(attack && cfg.requireRefutation && attempted < cfg.minHints)
      && !(attack && refutation < cfg.minRefutation);
    Result(passed, score, refutation, missing)
  }

  lemma ScoresInUnitInterval(c: Conclusion, called: set<string>, template: Option<Template>, cfg: Config)
    ensures var r := Evaluate(c, called, template, cfg); 0.0 <= r.score <= 1.0 && 0.0 <= r.refutation <= 1.0
  {
  }

  function RequiredShare(required: seq<string>, called: set<string>): (r: real)
    ensures 0.0 <= r <= 1.0 && (r == 1.0 <== Missing(required, called) == [])
  {
    if required == [] then 1.0 else 1.0 - Share(|Missing(required, called)|, |required|)
  }

  function HintShare(hints: seq<Option<string>>, called: set<string>): (r: real)
    ensures 0.0 <= r <= 1.0
    ensures CountTried(hints, called) == |hints| ==> r == 1.0
    ensures CountTried(hints, called) == 0 && hints != [] ==> r == 0.0
  {
    Share(CountTried(hints, called), |hints|)
  }

  lemma RequiredMonotone(required: seq<string>, a: set<string>, b: set<string>)
    requires a <= b
    ensures Missing(required, a) == [] ==> Missing(required, b) == []
    ensures RequiredShare(required, a) <= RequiredShare(required, b)
  {
    MissingAntitone(required, a, b);
    ShareMonotone(|Missing(required, b)|, |Missing(required, a)|, |required|);
  }

  lemma HintsMonotone(hints: seq<Option<string>>, a: set<string>, b: set<string>)
    requires a <= b
    ensures CountTried(hints, a) <= CountTried(hints, b)
    ensures HintShare(hints, a) <= HintShare(hints, b)
  {
    CountTriedMonotone(hints, a, b);
    ShareMonotone(CountTried(hints, a), CountTried(hints, b), |hints|);
  }

  lemma CountTriedMonotone(hints: seq<Option<string>>, a: set<string>, b: set<string>)
    requires a <= b
    ensures CountTried(hints, a) <= CountTried(hints, b)
  {
  }

  lemma MissingAntitone(required: seq<string>, a: set<string>, b: set<string>)
    requires a <= b
    ensures |Missing(required, b)| <= |Missing(required, a)|
  {
  }

  /** The closure score as a function of its three coverages. */
  function Weigh(required: real, supporting: real, refuting: real): real {
    0.4 * required + 0.3 * supporting + 0.3 * refuting
  }

  lemma ScoreMonotone(t: Template, a: set<string>, b: set<string>)
    requires a <= b
    ensures Score(t, a) <= Score(t, b)
  {
    RequiredMonotone(t.required, a, b);
    HintsMonotone(t.supporting, a, b);
    HintsMonotone(t.refuting, a, b);
  }

  /** Calling more skills never turns an accepted conclusion into a rejected one. */
  lemma MoreEvidenceNeverRejects(c: Conclusion, a: set<string>, b: set<string>, template: Option<Template>, cfg: Config)
    requires a <= b && Evaluate(c, a, template, cfg).passed
    ensures Evaluate(c, b, template, cfg).passed
    ensures Evaluate(c, a, template, cfg).score <= Evaluate(c, b, template, cfg).score
  {
    var t := if template.Some? then template.value else Template([], [], []);
    ScoreMonotone(t, a, b);
    RequiredMonotone(t.required, a, b);
    HintsMonotone(t.refuting, a, b);
  }

  /** Every skill that the template mentions has been called. */
  ghost predicate Exhausted(t: Template, called: set<string>) {
    && (forall s :: s in t.required ==> s in called)
    && (forall h :: (h in t.supporting || h in t.refuting) && h.Some? ==> h.value in called)
  }

  /** The hints that name a skill; the others can never be tried. */
  function Callable(hints: seq<Option<string>>): (n: nat)
    ensures n <= |hints|
  {
    if hints == [] then 0 else (if hints[0].Some? then 1 else 0) + Callable(hints[1..])
  }

  lemma {:induction false} AllCallableTried(hints: seq<Option<string>>, called: set<string>)
    requires forall h :: h in hints && h.Some? ==> h.value in called
    ensures CountTried(hints, called) == Callable(hints)
  {
    if hints != [] {
      assert hints[0] in hints;
      AllCallableTried(hints[1..], called);
    }
  }

  /** After every skill of the template has been called, whether a conclusion is accepted depends on the
      thresholds and the template alone. */
  lemma ExhaustedIsDecidedByThresholds(c: Conclusion, called: set<string>, t: Template, cfg: Config)
    requires cfg.enabled && !NeedsHuman(c.verdict) && Exhausted(t, called)
    ensures var supporting, refuting :=
      Share(Callable(t.supporting), |t.supporting|), Share(Callable(t.refuting), |t.refuting|);
      && Evaluate(c, called, Some(t), cfg).score == Weigh(1.0, supporting, refuting)
      && (Evaluate(c, called, Some(t), cfg).passed <==>
            && cfg.minScore <= Weigh(1.0, supporting, refuting)
            && (c.verdict.AttackConfirmed? && t.refuting != [] ==>
                  cfg.minRefutation <= refuting && (cfg.requireRefutation ==> cfg.minHints <= Callable(t.refuting))))
  {
    AllCallableTried(t.supporting, called);
    AllCallableTried(t.refuting, called);
  }

  /** What an accepted settling verdict guarantees about the skills called. */
  ghost predicate EvidenceMet(c: Conclusion, called: set<string>, template: Option<Template>, cfg: Config) {
    template.Some? ==>
      && (forall s :: s in template.value.required ==> s in called)
      && (c.verdict.AttackConfirmed? && template.value.refuting != [] ==>
            && (cfg.requireRefutation ==> cfg.minHints <= CountTried(template.value.refuting, called))
            && cfg.minRefutation <= HintShare(template.value.refuting, called))
  }

  lemma AcceptedMeansEvidence(c: Conclusion, called: set<string>, template: Option<Template>, cfg: Config)
    requires cfg.enabled && !NeedsHuman(c.verdict) && Evaluate(c, called, template, cfg).passed
    ensures EvidenceMet(c, called, template, cfg)
  {
  }

  // ---- the gate in numbers ------------------------------------------------------------

  /** Which hints have been tried, by their place. */
  function TriedHints(hints: seq<Option<string>>, called: set<string>): set<nat> {
    set i: nat | i < |hints| && hints[i].Some? && hints[i].value in called
  }

  /** The places one further on. */
  function Shift(s: set<nat>): (r: set<nat>)
    ensures forall j: nat :: j in r <==> j > 0 && j - 1 in s
  {
    set i | i in s :: i + 1
  }

  lemma {:induction false} ShiftKeepsSize(s: set<nat>)
    ensures |Shift(s)| == |s|
    decreases |s|
  {
    if s == {} {
      assert Shift(s) == {};
    } else {
      var x :| x in s;
      ShiftKeepsSize(s - {x});
      assert Shift(s) == Shift(s - {x}) + {x + 1};
    }
  }

  lemma {:induction false} CountTriedIsSize(hints: seq<Option<string>>, called: set<string>)
    ensures CountTried(hints, called) == |TriedHints(hints, called)|
  {
    if hints != [] {
      var rest := TriedHints(hints[1..], called);
      CountTriedIsSize(hints[1..], called);
      ShiftKeepsSize(rest);
      assert TriedHints(hints, called) == Shift(rest) + if Tried(hints[0], called) then {0} else {};
    }
  }

  /** The required skills that have been called, by their place. */
  function CalledSkills(required: seq<string>, called: set<string>): set<nat> {
    set i: nat | i < |required| && required[i] in called
  }

  lemma {:induction false} MissingIsRest(required: seq<string>, called: set<string>)
    ensures |CalledSkills(required, called)| == |required| - |Missing(required, called)|
  {
    if required != [] {
      MissingIsRest(required[1..], called);
      CalledSkillsCons(required, called);
    }
  }

  lemma CalledSkillsCons(required: seq<string>, called: set<string>)
    requires required != []
    ensures |CalledSkills(required, called)| ==
      |CalledSkills(required[1..], called)| + if required[0] in called then 1 else 0
  {
    var rest := CalledSkills(required[1..], called);
    ShiftKeepsSize(rest);
    if required[0] in called {
      assert CalledSkills(required, called) == Shift(rest) + {0};
    } else {
      assert CalledSkills(required, called) == Shift(rest);
    }
  }

  /** part of whole, where nothing is left to cover of an empty whole. */
  function Coverage(part: int, whole: nat): real {
    if whole == 0 then 1.0 else part as real / whole as real
  }

  /** The score in tenths: four for the coverage of the required skills, three each for that of the
      supporting and of the refuting hints. */
  lemma ScoreInTenths(t: Template, called: set<string>)
    ensures 10.0 * Score(t, called) ==
      4.0 * Coverage(|CalledSkills(t.required, called)|, |t.required|)
      + 3.0 * Coverage(|TriedHints(t.supporting, called)|, |t.supporting|)
      + 3.0 * Coverage(|TriedHints(t.refuting, called)|, |t.refuting|)
  {
    RequiredCovers(t.required, called);
    HintsCover(t.supporting, called);
    HintsCover(t.refuting, called);
    SharesInTenths(RequiredShare(t.required, called), HintShare(t.supporting, called), HintShare(t.refuting, called));
  }

  lemma RequiredCovers(required: seq<string>, called: set<string>)
    ensures RequiredShare(required, called) == Coverage(|CalledSkills(required, called)|, |required|)
  {
    MissingIsRest(required, called);
    if required != [] { RestOfShare(|Missing(required, called)|, |required|); }
  }

  lemma HintsCover(hints: seq<Option<string>>, called: set<string>)
    ensures HintShare(hints, called) == Coverage(|TriedHints(hints, called)|, |hints|)
  {
    CountTriedIsSize(hints, called);
  }

  lemma RestOfShare(part: nat, whole: nat)
    requires part <= whole && whole > 0
    ensures 1.0 - Share(part, whole) == Coverage(whole - part, whole)
  {
    var w := whole as real;
    assert w / w == 1.0;
    assert (w - part as real) / w == w / w - part as real / w;
  }

  lemma SharesInTenths(required: real, supporting: real, refuting: real)
    ensures 10.0 * Weigh(required, supporting, refuting) == 4.0 * required + 3.0 * supporting + 3.0 * refuting
  {
  }

  /** A settling verdict is accepted with the gate on exactly when every required skill has been called,
      the score reaches its minimum and, for an attack with refuting hints, enough of those have been
      tried; the other verdicts, and all with the gate off, are accepted as they are. */
  lemma AcceptedExactly(c: Conclusion, called: set<string>, t: Template, cfg: Config)
    ensures var refuted := |TriedHints(t.refuting, called)|;
      Evaluate(c, called, Some(t), cfg).passed <==>
        || !cfg.enabled || c.verdict.InsufficientInformation? || c.verdict.NeedsHumanReview?
        || (&& (forall s :: s in t.required ==> s in called)
            && cfg.minScore <= Score(t, called)
            && (c.verdict.AttackConfirmed? && t.refuting != [] ==>
                  && (cfg.requireRefutation ==> cfg.minHints <= refuted)
                  && cfg.minRefutation <= Coverage(refuted, |t.refuting|)))
    ensures cfg.enabled && !c.verdict.InsufficientInformation? && !c.verdict.NeedsHumanReview? ==>
      var r := Evaluate(c, called, Some(t), cfg);
      && r.score == Score(t, called) && r.refutation == Coverage(|TriedHints(t.refuting, called)|, |t.refuting|)
      && forall s :: s in r.missing <==> s in t.required && s !in called
    ensures Evaluate(c, called, None, cfg) == Evaluate(c, called, Some(Template([], [], [])), cfg)
  {
    CountTriedIsSize(t.refuting, called);
  }

  /** Under the default thresholds, calling just the required skills is not enough once the template
      carries both kinds of hints and none of them has been tried. */
  lemma RequiredSkillsAloneAreRejected(c: Conclusion, called: set<string>, t: Template)
    requires !NeedsHuman(c.verdict) && t.supporting != [] && t.refuting != []
    requires forall h :: h in t.supporting || h in t.refuting ==> !Tried(h, called)
    ensures !Evaluate(c, called, Some(t), DefaultConfig).passed
  {
    NoneTried(t.supporting, called);
    NoneTried(t.refuting, called);
  }

  lemma NoneTried(hints: seq<Option<string>>, called: set<string>)
    requires forall h :: h in hints ==> !Tried(h, called)
    ensures CountTried(hints, called) == 0
  {
  }
}
