/** The rule-noise roll-up (app/console/rule_noise.py): investigation rows merged into one sample per
    rule and event, samples rolled into one bucket per rule, and the buckets ranked. */
module RuleNoise {
  import opened Wrappers
  import Text

  datatype Verdict = FalsePositive | Attack | Other

  /** A missing name is the empty string, as `(x or "")` makes it. */
  datatype Sample = Sample(
    ruleId: string, ruleName: string, event: string, verdict: Verdict, alerts: nat, confirmed: bool, rejected: bool)

  /** The rule a sample is counted under; the empty key is skipped. */
  function KeyOf(s: Sample): string {
    var id := Text.Strip(s.ruleId);
    if id != "" then id else Text.Strip(s.ruleName)
  }

  datatype Bucket = Bucket(
    ruleId: string, ruleName: string, alerts: nat, events: set<string>, fp: nat, attack: nat,
    confirmedFp: nat, rejectedFp: nat, confirmedAttack: nat, rejectedAttack: nat)

  /** Buckets by key; `order` lists the keys as they first appeared. */
  datatype Groups = Groups(order: seq<string>, buckets: map<string, Bucket>)

  function NewBucket(s: Sample): Bucket {
    Bucket(Text.Strip(s.ruleId), Text.Strip(s.ruleName), 0, {}, 0, 0, 0, 0, 0, 0)
  }

  function Bump(b: bool): nat {
    if b then 1 else 0
  }

  function Rejected(s: Sample): bool {
    s.rejected && !s.confirmed
  }

  /** One sample into its bucket; only the first sample of an event is counted beyond its alerts. */
  function AddToBucket(b: Bucket, s: Sample): Bucket {
    var named := if b.ruleName == "" then b.(ruleName := Text.Strip(s.ruleName)) else b;
    var counted := named.(alerts := named.alerts + s.alerts);
    if s.event in b.events then counted else
    var fp, attack := s.verdict.FalsePositive?, s.verdict.Attack?;
    counted.(
      events := b.events + {s.event},
      fp := b.fp + Bump(fp), attack := b.attack + Bump(attack),
      confirmedFp := b.confirmedFp + Bump(fp && s.confirmed), rejectedFp := b.rejectedFp + Bump(fp && Rejected(s)),
      confirmedAttack := b.confirmedAttack + Bump(attack && s.confirmed),
      rejectedAttack := b.rejectedAttack + Bump(attack && Rejected(s)))
  }

  function AddSample(g: Groups, s: Sample): Groups {
    var key := KeyOf(s);
    if key == "" then g else
    var b := if key in g.buckets then g.buckets[key] else NewBucket(s);
    Groups(if key in g.buckets then g.order else g.order + [key], g.buckets[key := AddToBucket(b, s)])
  }

  function Group(samples: seq<Sample>): Groups {
    if samples == [] then Groups([], map[]) else AddSample(Group(samples[..|samples| - 1]), samples[|samples| - 1])
  }

  // ---- the reference: plain counting ---------------------------------------------

  /** What is counted about the samples of a rule. */
  datatype Kind = AnyEvent | Fp | AttackEvent | ConfirmedFp | RejectedFp | ConfirmedAttack | RejectedAttack

  predicate Matches(s: Sample, kind: Kind) {
    match kind
    case AnyEvent => true
    case Fp => s.verdict.FalsePositive?
    case AttackEvent => s.verdict.Attack?
    case ConfirmedFp => s.verdict.FalsePositive? && s.confirmed
    case RejectedFp => s.verdict.FalsePositive? && Rejected(s)
    case ConfirmedAttack => s.verdict.Attack? && s.confirmed
    case RejectedAttack => s.verdict.Attack? && Rejected(s)
  }

  function Counter(b: Bucket, kind: Kind): nat {
    match kind
    case AnyEvent => |b.events|
    case Fp => b.fp
    case AttackEvent => b.attack
    case ConfirmedFp => b.confirmedFp
    case RejectedFp => b.rejectedFp
    case ConfirmedAttack => b.confirmedAttack
    case RejectedAttack => b.rejectedAttack
  }

  /** The number of samples of a rule that match. */
  function Count(samples: seq<Sample>, key: string, kind: Kind): nat {
    if samples == [] then 0 else
    var s := samples[|samples| - 1];
    Count(samples[..|samples| - 1], key, kind) + Bump(KeyOf(s) == key && Matches(s, kind))
  }

  function SumAlerts(samples: seq<Sample>, key: string): nat {
    if samples == [] then 0 else
    var s := samples[|samples| - 1];
    SumAlerts(samples[..|samples| - 1], key) + if KeyOf(s) == key then s.alerts else 0
  }

  /** No event is reported twice for a rule. */
  ghost predicate PairsDistinct(samples: seq<Sample>) {
    forall i, j :: 0 <= i < j < |samples| ==>
      !(KeyOf(samples[i]) == KeyOf(samples[j]) && samples[i].event == samples[j].event)
  }

  ghost predicate Mentions(samples: seq<Sample>, key: string, event: string) {
    exists i :: 0 <= i < |samples| && KeyOf(samples[i]) == key && samples[i].event == event
  }

  ghost predicate Occurs(samples: seq<Sample>, key: string) {
    exists i :: 0 <= i < |samples| && KeyOf(samples[i]) == key
  }

  /** The bucket of a key holds the plain counts over the samples. */
  ghost predicate BucketCounts(b: Bucket, samples: seq<Sample>, key: string) {
    && (forall kind :: Counter(b, kind) == Count(samples, key, kind))
    && b.alerts == SumAlerts(samples, key)
    && (forall e :: e in b.events <==> Mentions(samples, key, e))
  }

  ghost predicate GroupsCount(g: Groups, samples: seq<Sample>, key: string) {
    && (key in g.buckets <==> key != "" && Occurs(samples, key))
    && (key in g.buckets ==> BucketCounts(g.buckets[key], samples, key))
    && (!Occurs(samples, key) ==> SumAlerts(samples, key) == 0 && forall kind :: Count(samples, key, kind) == 0)
  }

  lemma MentionsSnoc(samples: seq<Sample>, s: Sample, key: string, event: string)
    ensures Mentions(samples + [s], key, event) <==>
      Mentions(samples, key, event) || (KeyOf(s) == key && s.event == event)
  {
    var all, n := samples + [s], |samples|;
    if Mentions(samples, key, event) {
      var i :| 0 <= i < n && KeyOf(samples[i]) == key && samples[i].event == event;
      assert all[i] == samples[i];
    }
    assert all[n] == s;
  }

  lemma OccursSnoc(samples: seq<Sample>, s: Sample, key: string)
    ensures Occurs(samples + [s], key) <==> Occurs(samples, key) || KeyOf(s) == key
  {
    var all, n := samples + [s], |samples|;
    if Occurs(samples, key) {
      var i :| 0 <= i < n && KeyOf(samples[i]) == key;
      assert all[i] == samples[i];
    }
    assert all[n] == s;
  }

  lemma CountSnoc(samples: seq<Sample>, s: Sample, key: string, kind: Kind)
    ensures Count(samples + [s], key, kind) == Count(samples, key, kind) + Bump(KeyOf(s) == key && Matches(s, kind))
    ensures SumAlerts(samples + [s], key) == SumAlerts(samples, key) + if KeyOf(s) == key then s.alerts else 0
  {
    assert (samples + [s])[..|samples|] == samples;
  }

  lemma CounterStep(b: Bucket, s: Sample, kind: Kind)
    requires s.event !in b.events
    ensures Counter(AddToBucket(b, s), kind) == Counter(b, kind) + Bump(Matches(s, kind))
  {
    match kind case AnyEvent => case _ =>
  }

  lemma AddToBucketCounts(b: Bucket, samples: seq<Sample>, s: Sample, key: string)
    requires BucketCounts(b, samples, key) && KeyOf(s) == key && !Mentions(samples, key, s.event)
    ensures BucketCounts(AddToBucket(b, s), samples + [s], key)
  {
    assert s.event !in b.events;
    var b' := AddToBucket(b, s);
    assert b'.events == b.events + {s.event} && b'.alerts == b.alerts + s.alerts;
    forall kind { CounterStep(b, s, kind); }
    CountsStep(b, b', samples, s, key);
  }

  lemma CountsStep(b: Bucket, b': Bucket, samples: seq<Sample>, s: Sample, key: string)
    requires BucketCounts(b, samples, key) && KeyOf(s) == key
    requires b'.events == b.events + {s.event} && b'.alerts == b.alerts + s.alerts
    requires forall kind :: Counter(b', kind) == Counter(b, kind) + Bump(Matches(s, kind))
    ensures BucketCounts(b', samples + [s], key)
  {
    forall kind ensures Counter(b', kind) == Count(samples + [s], key, kind) {
      CountSnoc(samples, s, key, kind);
      assert Counter(b, kind) == Count(samples, key, kind);
    }
    forall e ensures e in b'.events <==> Mentions(samples + [s], key, e) { MentionsSnoc(samples, s, key, e); }
    CountSnoc(samples, s, key, AnyEvent);
  }

  /** On samples with distinct (rule, event) pairs every bucket counter is the number of matching samples. */
  lemma {:induction false} GroupingCounts(samples: seq<Sample>, key: string)
    requires PairsDistinct(samples)
    ensures GroupsCount(Group(samples), samples, key)
  {
    if samples != [] {
      var before, s := samples[..|samples| - 1], samples[|samples| - 1];
      assert samples == before + [s];
      GroupingCounts(before, key);
      OccursSnoc(before, s, key);
      forall kind { CountSnoc(before, s, key, kind); }
      CountSnoc(before, s, key, AnyEvent);
      if KeyOf(s) == key && key != "" {
        var g := Group(before);
        var b := if key in g.buckets then g.buckets[key] else NewBucket(s);
        if key !in g.buckets { EmptyBucketCounts(before, s, key); }
        AddToBucketCounts(b, before, s, key);
      } else {
        OtherSample(before, s, key);
      }
    }
  }

  lemma EmptyBucketCounts(samples: seq<Sample>, s: Sample, key: string)
    requires !Occurs(samples, key) && SumAlerts(samples, key) == 0 && forall kind :: Count(samples, key, kind) == 0
    ensures BucketCounts(NewBucket(s), samples, key)
  {
    forall kind ensures Counter(NewBucket(s), kind) == Count(samples, key, kind) {
      assert Count(samples, key, kind) == 0;
    }
  }

  lemma OtherSample(before: seq<Sample>, s: Sample, key: string)
    requires GroupsCount(Group(before), before, key) && (KeyOf(s) != key || key == "")
    ensures GroupsCount(Group(before + [s]), before + [s], key)
  {
    var g, g' := Group(before), Group(before + [s]);
    assert (before + [s])[..|before|] == before;
    OccursSnoc(before, s, key);
    assert key in g'.buckets <==> key in g.buckets;
    if KeyOf(s) != key {
      CountSnoc(before, s, key, AnyEvent);
      forall kind ensures Count(before + [s], key, kind) ==
        Count(before, key, kind) { CountSnoc(before, s, key, kind); }
      if key in g.buckets { SameBucketCounts(g.buckets[key], before, s, key); }
    }
  }

  lemma SameBucketCounts(b: Bucket, before: seq<Sample>, s: Sample, key: string)
    requires BucketCounts(b, before, key) && KeyOf(s) != key
    ensures BucketCounts(b, before + [s], key)
  {
    CountSnoc(before, s, key, AnyEvent);
    forall kind ensures Counter(b, kind) == Count(before + [s], key, kind) { CountSnoc(before, s, key, kind); }
    forall e ensures e in b.events <==> Mentions(before + [s], key, e) { MentionsSnoc(before, s, key, e); }
  }

  // ---- order does not matter ------------------------------------------------------

  lemma {:induction false} CountPermutation(a: seq<Sample>, b: seq<Sample>, key: string, kind: Kind)
    requires multiset(a) == multiset(b)
    ensures SameTotals(a, b, key, kind)
    decreases |a|
  {
    if a == [] {
      OnlyEmpty(b);
    } else {
      var i := MatchLast(a, b);
      CountPermutation(a[..|a| - 1], b[..i] + b[i + 1..], key, kind);
      PermutationStep(a, b, i, key, kind);
    }
  }

  ghost predicate SameTotals(a: seq<Sample>, b: seq<Sample>, key: string, kind: Kind) {
    Count(a, key, kind) == Count(b, key, kind) && SumAlerts(a, key) == SumAlerts(b, key)
  }

  lemma PermutationStep(a: seq<Sample>, b: seq<Sample>, i: nat, key: string, kind: Kind)
    requires a != [] && i < |b| && b[i] == a[|a| - 1]
    requires SameTotals(a[..|a| - 1], b[..i] + b[i + 1..], key, kind)
    ensures SameTotals(a, b, key, kind)
  {
    var n := |a| - 1;
    assert a == a[..n] + [a[n]];
    CountSnoc(a[..n], a[n], key, kind);
    Reinsert(b, i, key, kind);
  }

  lemma OnlyEmpty(b: seq<Sample>)
    requires multiset(b) == multiset{}
    ensures b == []
  {
    assert |b| == |multiset(b)|;
  }

  lemma Reinsert(b: seq<Sample>, i: nat, key: string, kind: Kind)
    requires i < |b|
    ensures Count(b, key, kind) == Count(b[..i] + b[i + 1..], key, kind) +
      Bump(KeyOf(b[i]) == key && Matches(b[i], kind))
    ensures SumAlerts(b, key) == SumAlerts(b[..i] + b[i + 1..], key) + if KeyOf(b[i]) == key then b[i].alerts else 0
  {
    assert b == b[..i] + [b[i]] + b[i + 1..];
    CountRemove(b[..i], b[i], b[i + 1..], key, kind);
  }

  /** The last element of a sits somewhere in its permutation b. */
  lemma MatchLast(a: seq<Sample>, b: seq<Sample>) returns (i: nat)
    requires multiset(a) == multiset(b) && a != []
    ensures i < |b| && b[i] == a[|a| - 1]
    ensures multiset(a[..|a| - 1]) == multiset(b[..i] + b[i + 1..])
  {
    var x, n := a[|a| - 1], |a| - 1;
    assert a == a[..n] + [x];
    assert x in multiset(b);
    i :| 0 <= i < |b| && b[i] == x;
    TakeOut(b, i);
    assert multiset(a[..n] + [x]) == multiset(a[..n]) + multiset{x};
    assert multiset(b[..i] + b[i + 1..]) == multiset(b) - multiset{x} == multiset(a[..n]);
  }

  lemma TakeOut(b: seq<Sample>, i: nat)
    requires i < |b|
    ensures b == b[..i] + [b[i]] + b[i + 1..]
    ensures multiset(b) == multiset(b[..i] + b[i + 1..]) + multiset{b[i]}
  {
    var c := b[..i] + [b[i]] + b[i + 1..];
    assert b == c;
    assert multiset(c) == multiset(b[..i]) + multiset{b[i]} + multiset(b[i + 1..]);
  }

  lemma {:induction false} CountRemove(a: seq<Sample>, x: Sample, b: seq<Sample>, key: string, kind: Kind)
    ensures Count(a + [x] + b, key, kind) == Count(a + b, key, kind) + Bump(KeyOf(x) == key && Matches(x, kind))
    ensures SumAlerts(a + [x] + b, key) == SumAlerts(a + b, key) + if KeyOf(x) == key then x.alerts else 0
    decreases |b|
  {
    if b == [] {
      assert a + [x] + b == a + [x] && a + b == a;
      CountSnoc(a, x, key, kind);
    } else {
      var n, y := |b| - 1, b[|b| - 1];
      assert a + [x] + b == (a + [x] + b[..n]) + [y] && a + b == (a + b[..n]) + [y];
      CountRemove(a, x, b[..n], key, kind);
      CountSnoc(a + [x] + b[..n], y, key, kind);
      CountSnoc(a + b[..n], y, key, kind);
    }
  }

  /** Rolling up the same distinct pairs in any order gives every rule the same numbers. */
  lemma OrderIrrelevant(a: seq<Sample>, b: seq<Sample>, key: string, kind: Kind)
    requires PairsDistinct(a) && PairsDistinct(b) && multiset(a) == multiset(b)
    ensures key in Group(a).buckets <==> key in Group(b).buckets
    ensures key in Group(a).buckets ==>
      Counter(Group(a).buckets[key], kind) == Counter(Group(b).buckets[key], kind) &&
        Group(a).buckets[key].alerts == Group(b).buckets[key].alerts
  {
    GroupingCounts(a, key);
    GroupingCounts(b, key);
    CountPermutation(a, b, key, kind);
    if Occurs(a, key) { OccursPermutation(a, b, key); }
    if Occurs(b, key) { OccursPermutation(b, a, key); }
    SameCounts(Group(a), a, Group(b), b, key, kind);
  }

  lemma SameCounts(g: Groups, a: seq<Sample>, h: Groups, b: seq<Sample>, key: string, kind: Kind)
    requires GroupsCount(g, a, key) && GroupsCount(h, b, key) && (Occurs(a, key) <==> Occurs(b, key))
    requires Count(a, key, kind) == Count(b, key, kind) && SumAlerts(a, key) == SumAlerts(b, key)
    ensures key in g.buckets <==> key in h.buckets
    ensures key in g.buckets ==>
      Counter(g.buckets[key], kind) == Counter(h.buckets[key], kind) && g.buckets[key].alerts == h.buckets[key].alerts
  {
  }

  lemma OccursPermutation(a: seq<Sample>, b: seq<Sample>, key: string)
    requires multiset(a) == multiset(b) && Occurs(a, key)
    ensures Occurs(b, key)
  {
    var i :| 0 <= i < |a| && KeyOf(a[i]) == key;
    assert a[i] in multiset(b);
  }

  /** Human decisions never outnumber the events of their verdict, nor verdicts the events; this
      needs no assumption on the samples. */
  ghost predicate Consistent(b: Bucket) {
    b.confirmedFp + b.rejectedFp <= b.fp && b.confirmedAttack + b.rejectedAttack <= b.attack &&
      b.fp + b.attack <= |b.events|
  }

  lemma {:induction false} CountersConsistent(samples: seq<Sample>, key: string)
    ensures key in Group(samples).buckets ==> Consistent(Group(samples).buckets[key])
  {
    if samples != [] {
      var before, s := Group(samples[..|samples| - 1]), samples[|samples| - 1];
      CountersConsistent(samples[..|samples| - 1], key);
      AddToBucketConsistent(if key in before.buckets then before.buckets[key] else NewBucket(s), s);
    }
  }

  lemma AddToBucketConsistent(b: Bucket, s: Sample)
    requires Consistent(b)
    ensures Consistent(AddToBucket(b, s))
  {
  }

  // ---- suggestions and ranking --------------------------------------------------------

  datatype Suggestion = NoSuggestion | TightenRule | SpotCheck

  function Suggest(b: Bucket): Suggestion {
    if b.confirmedFp >= 1 && b.confirmedFp >= b.confirmedAttack then TightenRule
    else if b.confirmedFp == 0 && b.fp >= 2 && b.fp > b.attack && 2 * b.fp >= |b.events| then SpotCheck
    else NoSuggestion
  }

  datatype Row = Row(key: string, bucket: Bucket, suggestion: Suggestion)

  /** a ranks at least as high as b. */
  predicate AtLeast(a: Row, b: Row) {
    a.bucket.confirmedFp > b.bucket.confirmedFp ||
    (a.bucket.confirmedFp == b.bucket.confirmedFp &&
      (a.bucket.fp > b.bucket.fp || (a.bucket.fp == b.bucket.fp && a.bucket.alerts >= b.bucket.alerts)))
  }

  /** Stable insertion into a descending list: after everything that ranks at least as high. */
  function Place(rows: seq<Row>, r: Row): (p: seq<Row>)
    ensures |p| == |rows| + 1 && forall x :: x in p <==> x in rows || x == r
  {
    if rows == [] then [r]
    else if AtLeast(rows[0], r) then
      var p := Place(rows[1..], r);
      assert forall x :: x in rows <==> x == rows[0] || x in rows[1..];
      [rows[0]] + p
    else [r] + rows
  }

  ghost predicate Descending(rows: seq<Row>) {
    forall i, j :: 0 <= i < j < |rows| ==> AtLeast(rows[i], rows[j])
  }

  lemma {:induction false} PlaceDescending(rows: seq<Row>, r: Row)
    requires Descending(rows)
    ensures Descending(Place(rows, r))
  {
    if rows != [] && AtLeast(rows[0], r) {
      PlaceDescending(rows[1..], r);
      var p := Place(rows[1..], r);
      forall j | 0 <= j < |p| ensures AtLeast(rows[0], p[j]) {
        assert p[j] in rows[1..] || p[j] == r;
      }
    }
  }

  /** The rows that earn a suggestion, in the order their rules appeared, sorted. */
  function Ranked(g: Groups, keys: seq<string>): seq<Row> {
    if keys == [] then [] else
    var before, key := Ranked(g, keys[..|keys| - 1]), keys[|keys| - 1];
    if key in g.buckets && |g.buckets[key].events| > 0 && Suggest(g.buckets[key]) != NoSuggestion
    then Place(before, Row(key, g.buckets[key], Suggest(g.buckets[key]))) else before
  }

  function Noisiest(samples: seq<Sample>, limit: nat): seq<Row> {
    var rows := Ranked(Group(samples), Group(samples).order);
    if |rows| <= limit then rows else rows[..limit]
  }

  ghost predicate Qualifies(g: Groups, key: string, r: Row) {
    key in g.buckets && |g.buckets[key].events| > 0 && Suggest(g.buckets[key]) != NoSuggestion &&
      r == Row(key, g.buckets[key], Suggest(g.buckets[key]))
  }

  lemma {:induction false} RankedExact(g: Groups, keys: seq<string>)
    ensures Descending(Ranked(g, keys))
    ensures forall r :: r in Ranked(g, keys) <==> r.key in keys && Qualifies(g, r.key, r)
  {
    if keys != [] {
      var n, key := |keys| - 1, keys[|keys| - 1];
      RankedExact(g, keys[..n]);
      assert keys == keys[..n] + [key];
      if key in g.buckets && |g.buckets[key].events| > 0 && Suggest(g.buckets[key]) != NoSuggestion {
        PlaceDescending(Ranked(g, keys[..n]), Row(key, g.buckets[key], Suggest(g.buckets[key])));
      }
    }
  }

  lemma {:induction false} OrderListsKeys(samples: seq<Sample>)
    ensures var g := Group(samples); Distinct(g.order) && forall key :: key in g.order <==> key in g.buckets
  {
    if samples != [] {
      OrderListsKeys(samples[..|samples| - 1]);
      AddSampleKeys(Group(samples[..|samples| - 1]), samples[|samples| - 1]);
    }
  }

  lemma AddSampleKeys(g: Groups, s: Sample)
    requires Distinct(g.order) && forall key :: key in g.order <==> key in g.buckets
    ensures var h := AddSample(g, s); Distinct(h.order) && forall key :: key in h.order <==> key in h.buckets
  {
  }

  /** The list is descending, holds only rules that earn a suggestion, and leaves one out only when
      it is full of rules that rank at least as high. */
  lemma NoisiestIsTop(samples: seq<Sample>, limit: nat)
    ensures var g, top := Group(samples), Noisiest(samples, limit);
      && Descending(top) && |top| <= limit
      && (forall r :: r in top ==> Qualifies(g, r.key, r))
      && (forall r, key :: Qualifies(g, key, r) && r !in top ==> |top| == limit && forall k :: k in top ==>
        AtLeast(k, r))
  {
    var g, top := Group(samples), Noisiest(samples, limit);
    var rows := Ranked(g, g.order);
    RankedExact(g, g.order);
    OrderListsKeys(samples);
    forall r, key | Qualifies(g, key, r) && r !in top ensures |top| == limit && forall k :: k in top ==> AtLeast(k, r) {
      assert r.key == key && r in rows;
      var j :| 0 <= j < |rows| && rows[j] == r;
      assert forall i :: 0 <= i < |top| ==> top[i] == rows[i];
    }
  }

  // ---- which rules are listed, and in which order -----------------------------------------

  /** What a rule is listed for, in numbers: a tightening when some event is a confirmed false positive and
      no more are confirmed attacks; a spot check when no false positive is confirmed, at least two events
      are false positives, and those outnumber the attacks and make up half of all events; else nothing. */
  lemma SuggestedFor(b: Bucket)
    ensures Suggest(b).TightenRule? <==> b.confirmedFp > 0 && b.confirmedAttack <= b.confirmedFp
    ensures Suggest(b).SpotCheck? <==>
      b.confirmedFp == 0 && b.fp > 1 && b.attack < b.fp && |b.events| <= b.fp + b.fp
  {
  }

  /** What the samples of a rule must say for it to be listed. */
  ghost predicate Noisy(samples: seq<Sample>, key: string) {
    var confirmed, fp := Count(samples, key, ConfirmedFp), Count(samples, key, Fp);
    if confirmed > 0 then Count(samples, key, ConfirmedAttack) <= confirmed
    else fp > 1 && Count(samples, key, AttackEvent) < fp && Count(samples, key, AnyEvent) <= 2 * fp
  }

  ghost predicate Listed(g: Groups, key: string) {
    exists r :: Qualifies(g, key, r)
  }

  lemma NoisyBucket(b: Bucket, samples: seq<Sample>, key: string)
    requires BucketCounts(b, samples, key)
    ensures Noisy(samples, key) <==> Suggest(b) != NoSuggestion
  {
    SuggestedFor(b);
    assert Counter(b, ConfirmedFp) == b.confirmedFp && Counter(b, ConfirmedAttack) == b.confirmedAttack;
    assert Counter(b, Fp) == b.fp && Counter(b, AttackEvent) == b.attack && Counter(b, AnyEvent) == |b.events|;
  }

  /** So on distinct pairs a rule may be listed exactly when its samples say so. */
  lemma ListedIff(samples: seq<Sample>, key: string)
    requires PairsDistinct(samples)
    ensures Listed(Group(samples), key) <==> key != "" && Occurs(samples, key) && Noisy(samples, key)
  {
    var g := Group(samples);
    GroupingCounts(samples, key);
    if key in g.buckets {
      var b := g.buckets[key];
      NoisyBucket(b, samples, key);
      SomeEvent(samples, key, b);
      assert Suggest(b) != NoSuggestion ==> Qualifies(g, key, Row(key, b, Suggest(b)));
    }
  }

  lemma SomeEvent(samples: seq<Sample>, key: string, b: Bucket)
    requires Occurs(samples, key) && BucketCounts(b, samples, key)
    ensures |b.events| > 0
  {
    var i :| 0 <= i < |samples| && KeyOf(samples[i]) == key;
    assert Mentions(samples, key, samples[i].event);
    assert samples[i].event in b.events;
  }

  /** a comes before b in the list: more confirmed false positives; if as many, more false positives; if
      as many, more alerts; and if all are equal, the rule that appeared first. */
  ghost predicate Precedes(order: seq<string>, a: Row, b: Row) {
    var x, y := a.bucket, b.bucket;
    && x.confirmedFp >= y.confirmedFp
    && (x.confirmedFp == y.confirmedFp ==> x.fp >= y.fp)
    && (x.confirmedFp == y.confirmedFp && x.fp == y.fp ==> x.alerts >= y.alerts)
    && (x.confirmedFp == y.confirmedFp && x.fp == y.fp && x.alerts == y.alerts ==> Earlier(order, a.key, b.key))
  }

  ghost predicate Earlier(order: seq<string>, a: string, b: string) {
    exists i, j :: 0 <= i < j < |order| && order[i] == a && order[j] == b
  }

  ghost predicate InOrder(order: seq<string>, rows: seq<Row>) {
    forall i, j :: 0 <= i < j < |rows| ==> Precedes(order, rows[i], rows[j])
  }

  lemma EarlierSnoc(order: seq<string>, key: string, a: string, b: string)
    ensures Earlier(order, a, b) ==> Earlier(order + [key], a, b)
    ensures a in order && b == key ==> Earlier(order + [key], a, b)
  {
    var all := order + [key];
    if Earlier(order, a, b) {
      var i, j :| 0 <= i < j < |order| && order[i] == a && order[j] == b;
      assert all[i] == a && all[j] == b;
    }
    if a in order && b == key {
      var i :| 0 <= i < |order| && order[i] == a;
      assert all[i] == a && all[|order|] == key;
    }
  }

  /** Placing the row of the newest rule keeps the order. */
  lemma {:induction false} PlaceInOrder(order: seq<string>, rows: seq<Row>, r: Row)
    requires InOrder(order, rows) && forall k :: 0 <= k < |rows| ==> rows[k].key in order
    ensures InOrder(order + [r.key], Place(rows, r))
  {
    if rows == [] {
    } else if AtLeast(rows[0], r) {
      PlaceInOrder(order, rows[1..], r);
      var p := Place(rows[1..], r);
      forall j | 0 <= j < |p| ensures Precedes(order + [r.key], rows[0], p[j]) {
        assert p[j] in p;
        if p[j] == r {
          EarlierSnoc(order, r.key, rows[0].key, r.key);
        } else {
          var k :| 0 <= k < |rows[1..]| && rows[1..][k] == p[j];
          assert Precedes(order, rows[0], rows[k + 1]);
          EarlierSnoc(order, r.key, rows[0].key, p[j].key);
        }
      }
    } else {
      forall i, j | 0 <= i < j < |rows| + 1 ensures Precedes(order + [r.key], ([r] + rows)[i], ([r] + rows)[j]) {
        if i > 0 {
          EarlierSnoc(order, r.key, rows[i - 1].key, rows[j - 1].key);
        } else if j > 1 {
          assert Precedes(order, rows[0], rows[j - 1]);
        }
      }
    }
  }

  lemma {:induction false} RankedInOrder(g: Groups, keys: seq<string>)
    ensures InOrder(keys, Ranked(g, keys))
  {
    if keys != [] {
      var before, key := keys[..|keys| - 1], keys[|keys| - 1];
      assert keys == before + [key];
      RankedInOrder(g, before);
      RankedExact(g, before);
      var rows := Ranked(g, before);
      if key in g.buckets && |g.buckets[key].events| > 0 && Suggest(g.buckets[key]) != NoSuggestion {
        PlaceInOrder(before, rows, Row(key, g.buckets[key], Suggest(g.buckets[key])));
      } else {
        forall i, j | 0 <= i < j < |rows| ensures Precedes(keys, rows[i], rows[j]) {
          EarlierSnoc(before, key, rows[i].key, rows[j].key);
        }
      }
    }
  }

  /** The list is sorted by its three numbers, and ties keep the order in which the rules appeared. */
  lemma NoisiestInOrder(samples: seq<Sample>, limit: nat)
    ensures InOrder(Group(samples).order, Noisiest(samples, limit))
  {
    RankedInOrder(Group(samples), Group(samples).order);
  }

  // ---- names --------------------------------------------------------------------------

  /** Sample i is the first of its rule. */
  ghost predicate FirstSample(samples: seq<Sample>, key: string, i: nat) {
    i < |samples| && KeyOf(samples[i]) == key && forall j :: 0 <= j < i ==> KeyOf(samples[j]) != key
  }

  /** The first name that a sample of the rule gives. */
  function FirstName(samples: seq<Sample>, key: string): string {
    if samples == [] then "" else
    var before, s := FirstName(samples[..|samples| - 1], key), samples[|samples| - 1];
    if before == "" && KeyOf(s) == key then Text.Strip(s.ruleName) else before
  }

  function FirstId(samples: seq<Sample>, key: string): Option<string> {
    if samples == [] then None else
    var before, s := FirstId(samples[..|samples| - 1], key), samples[|samples| - 1];
    if before.None? && KeyOf(s) == key then Some(Text.Strip(s.ruleId)) else before
  }

  /** A bucket has the identifier of its first sample and the first name that any of its samples gives; the
      key is that identifier, or the name when it is blank. */
  lemma {:induction false} BucketsNamed(samples: seq<Sample>, key: string)
    ensures key in Group(samples).buckets ==>
      Some(Group(samples).buckets[key].ruleId) == FirstId(samples, key) &&
      Group(samples).buckets[key].ruleName == FirstName(samples, key)
    ensures key !in Group(samples).buckets && key != "" ==>
      FirstId(samples, key).None? && FirstName(samples, key) == ""
  {
    if samples != [] {
      BucketsNamed(samples[..|samples| - 1], key);
    }
  }

  lemma KeyIsIdOrName(s: Sample)
    ensures KeyOf(s) == if Text.Strip(s.ruleId) != "" then Text.Strip(s.ruleId) else Text.Strip(s.ruleName)
  {
  }

  /** A repeated event adds its alerts and, if it was missing, its name to the bucket, and nothing else. */
  lemma RepeatAddsAlerts(b: Bucket, s: Sample)
    requires s.event in b.events
    ensures AddToBucket(b, s) == b.(alerts := b.alerts + s.alerts,
      ruleName := if b.ruleName != "" then b.ruleName else Text.Strip(s.ruleName))
  {
  }

  // ---- the merge that produces the samples --------------------------------------------

  datatype Decision = Undecided | Confirmed | Refused

  /** One row of the join: an alert of an event, the event's latest verdict and one disposition. */
  datatype Joined = Joined(alert: string, ruleId: string, ruleName: string, event: string, verdict: Verdict,
    decision: Decision)

  datatype Item = Item(ruleId: string, ruleName: string, verdict: Verdict, alerts: set<string>, confirmed: bool,
    rejected: bool)

  type Pair = (string, string)

  datatype Merged = Merged(order: seq<Pair>, items: map<Pair, Item>)

  function PairOf(r: Joined): Pair {
    var id := Text.Strip(r.ruleId);
    (if id != "" then id else Text.Strip(r.ruleName), r.event)
  }

  function AddToItem(it: Item, r: Joined): Item {
    it.(alerts := it.alerts + {r.alert},
        confirmed := it.confirmed || r.decision.Confirmed?,
        rejected := it.rejected || r.decision.Refused?)
  }

  function NewItem(r: Joined): Item {
    Item(Text.Strip(r.ruleId), Text.Strip(r.ruleName), r.verdict, {}, false, false)
  }

  function AddRow(m: Merged, r: Joined): Merged {
    var p := PairOf(r);
    if p.0 == "" then m else
    var it := if p in m.items then m.items[p] else NewItem(r);
    Merged(if p in m.items then m.order else m.order + [p], m.items[p := AddToItem(it, r)])
  }

  function Merge(rows: seq<Joined>): Merged {
    if rows == [] then Merged([], map[]) else AddRow(Merge(rows[..|rows| - 1]), rows[|rows| - 1])
  }

  function SampleOf(p: Pair, it: Item): Sample {
    Sample(it.ruleId, it.ruleName, p.1, it.verdict, |it.alerts|, it.confirmed, it.rejected)
  }

  function SamplesOf(m: Merged, order: seq<Pair>): seq<Sample> {
    if order == [] then [] else
    var p := order[|order| - 1];
    SamplesOf(m, order[..|order| - 1]) + if p in m.items then [SampleOf(p, m.items[p])] else []
  }

  ghost predicate WellMerged(m: Merged) {
    && Distinct(m.order) && (forall p :: p in m.order <==> p in m.items)
    && (forall p :: p in m.items ==> KeyOf(SampleOf(p, m.items[p])) == p.0)
  }

  /** The sample of a row is counted under the key that the row was merged under. */
  lemma SampleKey(r: Joined, it: Item)
    requires DescribedBy(it, r)
    ensures KeyOf(SampleOf(PairOf(r), it)) == PairOf(r).0
  {
    Text.StripIdempotent(r.ruleId);
    Text.StripIdempotent(r.ruleName);
    assert Text.Strip("") == "";
  }

  lemma ItemAdded(m: Merged, p: Pair, it: Item)
    requires WellMerged(m) && KeyOf(SampleOf(p, it)) == p.0
    ensures WellMerged(Merged(if p in m.items then m.order else m.order + [p], m.items[p := it]))
  {
  }

  lemma AddRowKeeps(m: Merged, r: Joined)
    requires WellMerged(m)
    ensures WellMerged(AddRow(m, r))
  {
    var p := PairOf(r);
    if p.0 != "" {
      SampleKey(r, NewItem(r));
      ItemAdded(m, p, AddToItem(if p in m.items then m.items[p] else NewItem(r), r));
    }
  }

  lemma {:induction false} MergeWell(rows: seq<Joined>)
    ensures WellMerged(Merge(rows))
  {
    if rows != [] {
      MergeWell(rows[..|rows| - 1]);
      AddRowKeeps(Merge(rows[..|rows| - 1]), rows[|rows| - 1]);
    }
  }

  lemma {:induction false} SamplesFollowOrder(m: Merged, order: seq<Pair>)
    requires forall p :: p in order ==> p in m.items
    ensures |SamplesOf(m, order)| == |order|
    ensures forall i :: 0 <= i < |order| ==> SamplesOf(m, order)[i] == SampleOf(order[i], m.items[order[i]])
  {
    if order != [] {
      assert order == order[..|order| - 1] + [order[|order| - 1]];
      SamplesFollowOrder(m, order[..|order| - 1]);
    }
  }

  /** The merge reports every (rule, event) pair once, whatever the joined rows. */
  lemma MergedPairsDistinct(rows: seq<Joined>)
    ensures var m := Merge(rows); PairsDistinct(SamplesOf(m, m.order))
  {
    var m := Merge(rows);
    MergeWell(rows);
    SamplesFollowOrder(m, m.order);
    var samples := SamplesOf(m, m.order);
    forall i, j | 0 <= i < j < |samples| && KeyOf(samples[i]) == KeyOf(samples[j])
      ensures samples[i].event != samples[j].event {
      assert m.order[i] in m.items && m.order[j] in m.items;
    }
  }

  ghost predicate RowFor(rows: seq<Joined>, p: Pair, alert: string) {
    exists i :: 0 <= i < |rows| && PairOf(rows[i]) == p && rows[i].alert == alert
  }

  ghost predicate DecidedAs(rows: seq<Joined>, p: Pair, d: Decision) {
    exists i :: 0 <= i < |rows| && PairOf(rows[i]) == p && rows[i].decision == d
  }

  /** A merged item holds exactly the pair's alerts, is confirmed or rejected when some row is, and has
      the verdict and names of the pair's first row. */
  ghost predicate ItemExact(m: Merged, rows: seq<Joined>, p: Pair) {
    if p !in m.items then p.0 == "" || forall a :: !RowFor(rows, p, a) else
      && p.0 != ""
      && (forall a :: a in m.items[p].alerts <==> RowFor(rows, p, a))
      && (m.items[p].confirmed <==> DecidedAs(rows, p, Confirmed))
      && (m.items[p].rejected <==> DecidedAs(rows, p, Refused))
      && FirstDescribes(rows, p, m.items[p])
  }

  ghost predicate FirstDescribes(rows: seq<Joined>, p: Pair, it: Item) {
    exists i :: 0 <= i < |rows| && FirstFor(rows, p, i) && DescribedBy(it, rows[i])
  }

  ghost predicate FirstFor(rows: seq<Joined>, p: Pair, i: nat) {
    i < |rows| && PairOf(rows[i]) == p && forall j :: 0 <= j < i ==> PairOf(rows[j]) != p
  }

  predicate DescribedBy(it: Item, r: Joined) {
    it.verdict == r.verdict && it.ruleId == Text.Strip(r.ruleId) && it.ruleName == Text.Strip(r.ruleName)
  }

  /** The first row of a pair stays the first, and the item keeps its description. */
  lemma FirstStays(before: seq<Joined>, r: Joined, p: Pair, it: Item, it': Item)
    requires FirstDescribes(before, p, it)
    requires it'.verdict == it.verdict && it'.ruleId == it.ruleId && it'.ruleName == it.ruleName
    ensures FirstDescribes(before + [r], p, it')
  {
    var i :| 0 <= i < |before| && FirstFor(before, p, i) && DescribedBy(it, before[i]);
    var all := before + [r];
    assert forall j :: 0 <= j <= i ==> all[j] == before[j];
    assert FirstFor(all, p, i) && DescribedBy(it', all[i]);
  }

  lemma FirstAppears(before: seq<Joined>, r: Joined, p: Pair, it: Item)
    requires PairOf(r) == p && (forall a :: !RowFor(before, p, a)) && DescribedBy(it, r)
    ensures FirstDescribes(before + [r], p, it)
  {
    var all, n := before + [r], |before|;
    forall j | 0 <= j < n ensures PairOf(all[j]) != p {
      assert all[j] == before[j];
      if PairOf(before[j]) == p { assert RowFor(before, p, before[j].alert); }
    }
    assert all[n] == r && FirstFor(all, p, n);
  }

  lemma AddRowDescribes(m: Merged, before: seq<Joined>, r: Joined, p: Pair)
    requires p.0 != ""
    requires if p in m.items then FirstDescribes(before, p, m.items[p]) else forall a :: !RowFor(before, p, a)
    ensures p in AddRow(m, r).items ==> FirstDescribes(before + [r], p, AddRow(m, r).items[p])
  {
    var m' := AddRow(m, r);
    if p in m.items {
      FirstStays(before, r, p, m.items[p], m'.items[p]);
    } else if PairOf(r) == p {
      FirstAppears(before, r, p, m'.items[p]);
    }
  }

  lemma RowForSnoc(rows: seq<Joined>, r: Joined, p: Pair, a: string)
    ensures RowFor(rows + [r], p, a) <==> RowFor(rows, p, a) || (PairOf(r) == p && r.alert == a)
  {
    var all, n := rows + [r], |rows|;
    if RowFor(rows, p, a) {
      var i :| 0 <= i < n && PairOf(rows[i]) == p && rows[i].alert == a;
      assert all[i] == rows[i];
    }
    assert all[n] == r;
  }

  lemma DecidedSnoc(rows: seq<Joined>, r: Joined, p: Pair, d: Decision)
    ensures DecidedAs(rows + [r], p, d) <==> DecidedAs(rows, p, d) || (PairOf(r) == p && r.decision == d)
  {
    var all, n := rows + [r], |rows|;
    if DecidedAs(rows, p, d) {
      var i :| 0 <= i < n && PairOf(rows[i]) == p && rows[i].decision == d;
      assert all[i] == rows[i];
    }
    assert all[n] == r;
  }

  lemma NoRowNoDecision(rows: seq<Joined>, p: Pair, d: Decision)
    requires forall a :: !RowFor(rows, p, a)
    ensures !DecidedAs(rows, p, d)
  {
    if DecidedAs(rows, p, d) {
      var i :| 0 <= i < |rows| && PairOf(rows[i]) == p && rows[i].decision == d;
      assert RowFor(rows, p, rows[i].alert);
    }
  }

  lemma AddRowExact(m: Merged, before: seq<Joined>, r: Joined, p: Pair)
    requires ItemExact(m, before, p)
    ensures ItemExact(AddRow(m, r), before + [r], p)
  {
    forall a ensures RowFor(before + [r], p, a) <==>
      RowFor(before, p, a) || (PairOf(r) == p && r.alert == a) { RowForSnoc(before, r, p, a); }
    DecidedSnoc(before, r, p, Confirmed);
    DecidedSnoc(before, r, p, Refused);
    if p.0 != "" { AddRowDescribes(m, before, r, p); }
    if p !in m.items && p.0 != "" {
      NoRowNoDecision(before, p, Confirmed);
      NoRowNoDecision(before, p, Refused);
    }
    if PairOf(r) == p && p.0 != "" {
      var it := if p in m.items then m.items[p] else NewItem(r);
      assert AddRow(m, r).items[p] == AddToItem(it, r);
      assert forall a :: a in AddToItem(it, r).alerts <==> a in it.alerts || a == r.alert;
    }
  }

  lemma {:induction false} MergeExact(rows: seq<Joined>, p: Pair)
    ensures ItemExact(Merge(rows), rows, p)
  {
    if rows != [] {
      var before, r := rows[..|rows| - 1], rows[|rows| - 1];
      assert rows == before + [r];
      MergeExact(before, p);
      AddRowExact(Merge(before), before, r, p);
    }
  }

  /** The sample of a pair has the number of its distinct alerts, and is confirmed or rejected when some row
      of the pair is. */
  ghost predicate SampleFits(rows: seq<Joined>, p: Pair, s: Sample) {
    && s.event == p.1
    && (s.confirmed <==> DecidedAs(rows, p, Confirmed)) && (s.rejected <==> DecidedAs(rows, p, Refused))
    && (exists alerts: set<string> :: s.alerts == |alerts| && forall a :: a in alerts <==> RowFor(rows, p, a))
    && (exists i :: 0 <= i < |rows| && FirstFor(rows, p, i) && s.verdict == rows[i].verdict &&
          s.ruleId == Text.Strip(rows[i].ruleId) && s.ruleName == Text.Strip(rows[i].ruleName))
  }

  /** The merged samples are those of the pairs that some row has, one for each. */
  lemma SamplesExact(rows: seq<Joined>)
    ensures var m := Merge(rows);
      && |SamplesOf(m, m.order)| == |m.order|
      && (forall i :: 0 <= i < |m.order| ==> SampleFits(rows, m.order[i], SamplesOf(m, m.order)[i]))
      && (forall p :: p in m.order <==> p.0 != "" && exists a :: RowFor(rows, p, a))
  {
    var m := Merge(rows);
    MergeWell(rows);
    SamplesFollowOrder(m, m.order);
    forall i | 0 <= i < |m.order| ensures SampleFits(rows, m.order[i], SamplesOf(m, m.order)[i]) {
      assert m.order[i] in m.items;
      SampleExact(rows, m.order[i]);
    }
    forall p ensures p in m.order <==> p.0 != "" && exists a :: RowFor(rows, p, a) {
      MergeExact(rows, p);
      if p in m.items {
        var i :| 0 <= i < |rows| && FirstFor(rows, p, i) && DescribedBy(m.items[p], rows[i]);
        assert RowFor(rows, p, rows[i].alert);
      }
    }
  }

  lemma SampleExact(rows: seq<Joined>, p: Pair)
    requires p in Merge(rows).items
    ensures SampleFits(rows, p, SampleOf(p, Merge(rows).items[p]))
  {
    MergeExact(rows, p);
    var it := Merge(rows).items[p];
    assert SampleOf(p, it).alerts == |it.alerts|;
    var i :| 0 <= i < |rows| && FirstFor(rows, p, i) && DescribedBy(it, rows[i]);
  }

  /** So the counts of every listed rule are plain counts over the merged pairs. */
  lemma MergedCounts(rows: seq<Joined>, key: string)
    ensures var samples := SamplesOf(Merge(rows), Merge(rows).order); GroupsCount(Group(samples), samples, key)
  {
    MergedPairsDistinct(rows);
    GroupingCounts(SamplesOf(Merge(rows), Merge(rows).order), key);
  }

  // ---- the roll-up as the program runs it ------------------------------------------------

  /** Counts one sample in its bucket. */
  method Absorb(bucket: Bucket, s: Sample) returns (b: Bucket)
    ensures b == AddToBucket(bucket, s)
  {
    b := bucket;
    if Text.Strip(s.ruleName) != "" && b.ruleName == "" {
      b := b.(ruleName := Text.Strip(s.ruleName));
    }
    b := b.(alerts := b.alerts + s.alerts);
    if s.event in b.events { return; }
    b := b.(events := b.events + {s.event});
    if s.verdict.FalsePositive? {
      b := b.(fp := b.fp + 1);
      if s.confirmed {
        b := b.(confirmedFp := b.confirmedFp + 1);
      } else if s.rejected {
        b := b.(rejectedFp := b.rejectedFp + 1);
      }
    } else if s.verdict.Attack? {
      b := b.(attack := b.attack + 1);
      if s.confirmed {
        b := b.(confirmedAttack := b.confirmedAttack + 1);
      } else if s.rejected {
        b := b.(rejectedAttack := b.rejectedAttack + 1);
      }
    }
  }

  method RollUp(samples: seq<Sample>) returns (order: seq<string>, buckets: map<string, Bucket>)
    ensures Groups(order, buckets) == Group(samples)
  {
    order, buckets := [], map[];
    var i := 0;
    while i < |samples|
      invariant 0 <= i <= |samples| && Groups(order, buckets) == Group(samples[..i])
    {
      var s := samples[i];
      assert samples[..i + 1][..i] == samples[..i];
      var key := KeyOf(s);
      if key != "" {
        var b := if key in buckets then buckets[key] else NewBucket(s);
        b := Absorb(b, s);
        if key !in buckets { order := order + [key]; }
        buckets := buckets[key := b];
      }
      i := i + 1;
    }
    assert samples[..|samples|] == samples;
  }

  /** Rolls samples into buckets, then ranks the buckets that earn a suggestion. */
  method AggregateRuleNoise(samples: seq<Sample>, limit: nat) returns (rows: seq<Row>)
    ensures rows == Noisiest(samples, limit)
  {
    var order, buckets := RollUp(samples);
    rows := [];
    var i := 0;
    while i < |order|
      invariant 0 <= i <= |order| && rows == Ranked(Groups(order, buckets), order[..i])
    {
      assert order[..i + 1][..i] == order[..i];
      if order[i] in buckets && |buckets[order[i]].events| > 0 {
        var suggestion := Suggest(buckets[order[i]]);
        if suggestion != NoSuggestion {
          rows := Place(rows, Row(order[i], buckets[order[i]], suggestion));
        }
      }
      i := i + 1;
    }
    assert order[..|order|] == order;
    if |rows| > limit { rows := rows[..limit]; }
  }

  /** Merges one joined row into the table of its rule and event. */
  method MergeRow(order: seq<Pair>, items: map<Pair, Item>, r: Joined)
    returns (order': seq<Pair>, items': map<Pair, Item>)
    ensures Merged(order', items') == AddRow(Merged(order, items), r)
  {
    order', items' := order, items;
    var p := PairOf(r);
    if p.0 == "" { return; }
    var it := NewItem(r);
    if p in items {
      it := items[p];
    } else {
      order' := order + [p];
    }
    it := it.(alerts := it.alerts + {r.alert});
    if r.decision.Confirmed? {
      it := it.(confirmed := true);
    } else if r.decision.Refused? {
      it := it.(rejected := true);
    }
    items' := items[p := it];
  }

  /** Merges the joined rows per rule and event. */
  method MergeRows(joined: seq<Joined>) returns (order: seq<Pair>, items: map<Pair, Item>)
    ensures Merged(order, items) == Merge(joined)
  {
    order, items := [], map[];
    var i := 0;
    while i < |joined|
      invariant 0 <= i <= |joined| && Merged(order, items) == Merge(joined[..i])
    {
      order, items := MergeRow(order, items, joined[i]);
      assert joined[..i + 1][..i] == joined[..i];
      i := i + 1;
    }
    assert joined[..|joined|] == joined;
  }

  /** The merged samples, ranked by rule. */
  method ListNoisyRules(joined: seq<Joined>, limit: nat) returns (rows: seq<Row>)
    ensures var m := Merge(joined); rows == Noisiest(SamplesOf(m, m.order), limit)
    ensures forall r :: r in rows ==> Consistent(r.bucket)
  {
    var order, items := MergeRows(joined);
    var samples := SamplesOf(Merged(order, items), order);
    rows := AggregateRuleNoise(samples, limit);
    NoisiestIsTop(samples, limit);
    forall r | r in rows ensures Consistent(r.bucket) { CountersConsistent(samples, r.key); }
  }
}
