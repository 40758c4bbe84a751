/** The aggregation key of an alert (app/aggregation/key.py). Times are whole seconds since the epoch, UTC. */
module EventKey {
  import opened Wrappers
  import Text

  type Hours = h: int | h > 0 witness 24

  /** How a window start is written into the key: the ISO form separates times and holds no separator. */
  type Rendering = f: int -> string | Renders(f) witness Tally

  ghost predicate Renders(f: int -> string) {
    && (forall t :: '|' !in f(t))
    && (forall t, u :: f(t) == f(u) ==> t == u)
  }

  function Tally(t: int): (r: string)
    ensures '|' !in r && Untally(r) == t
  {
    if t >= 0 then seq(t, _ => '1') else "-" + seq(-t, _ => '1')
  }

  function Untally(s: string): int {
    if s != "" && s[0] == '-' then 1 - |s| else |s|
  }

  datatype Config = Config(hours: Hours, unknownHost: string, unknownUser: string, iso: Rendering)

  /** The normalized dimensions of an alert. */
  datatype Dims = Dims(host: string, user: string, category: string, windowStart: int)

  /** The day boundary for 24-hour windows, otherwise a fixed-width bucket from the epoch. */
  function FloorToWindow(ts: int, hours: Hours): int {
    if hours == 24 then ts - ts % 86400 else ts / (hours * 3600) * (hours * 3600)
  }

  /** Every window contains the times floored to it, and windows do not overlap: they start at the multiples
      of their width. */
  lemma WindowContains(ts: int, hours: Hours)
    ensures var w := FloorToWindow(ts, hours); w <= ts < w + hours * 3600 && exists q :: w == q * (hours * 3600)
    ensures FloorToWindow(FloorToWindow(ts, hours), hours) == FloorToWindow(ts, hours)
  {
    var width := hours * 3600;
    var q := ts / width;
    assert ts == q * width + ts % width;
    assert FloorToWindow(ts, hours) == q * width;
    DivUnique(q * width, q, width);
  }

  lemma DivUnique(x: int, q: int, width: int)
    requires width > 0 && q * width <= x < q * width + width
    ensures x / width == q
  {
    var d := x / width - q;
    assert x == x / width * width + x % width;
    assert d * width == x / width * width - q * width;
    assert d >= 1 ==> d * width >= width;
    assert d <= -1 ==> d * width <= -width;
  }

  function OrElse(s: string, fallback: string): string {
    if s == "" then fallback else s
  }

  function Normalize(name: Option<string>): string {
    if name.Some? then Text.Lower(Text.Strip(name.value)) else ""
  }

  function DimsOf(host: Option<string>, user: Option<string>, category: Option<string>, occurredAt: int, cfg: Config)
    : Dims
  {
    var named := if category.Some? && category.value != "" then category else Some("uncategorized");
    Dims(OrElse(Normalize(host), cfg.unknownHost), OrElse(Normalize(user), cfg.unknownUser), Normalize(named),
         FloorToWindow(occurredAt, cfg.hours))
  }

  /** What an alert's names become: trimmed and in lower case, with the stand-in for a host or user that is
      missing or blank, and "uncategorized" for a category that is missing or empty. */
  lemma DimsAreNormalized(host: Option<string>, user: Option<string>, category: Option<string>, occurredAt: int,
    cfg: Config)
    ensures var d := DimsOf(host, user, category, occurredAt, cfg);
      && d.host == (if host.None? || Text.Strip(host.value) == "" then cfg.unknownHost
                    else Text.Lower(Text.Strip(host.value)))
      && d.user == (if user.None? || Text.Strip(user.value) == "" then cfg.unknownUser
                    else Text.Lower(Text.Strip(user.value)))
      && d.category == (if category.None? || category.value == "" then "uncategorized"
                        else Text.Lower(Text.Strip(category.value)))
  {
    NormalStays("uncategorized");
  }

  // ---- the hashed payload ----------------------------------------------------

  function Join(head: string, rest: string): string {
    head + "|" + rest
  }

  /** The text that is hashed; `window` is the window start as it is written. */
  function Payload(host: string, user: string, category: string, window: string): string {
    Join(host, Join(user, Join(category, window)))
  }

  /** The event key. The hash of different payloads is taken to differ, so the payload stands for it. */
  function KeyText(d: Dims, cfg: Config): string {
    Payload(d.host, d.user, d.category, cfg.iso(d.windowStart))
  }

  predicate Plain(s: string) {
    '|' !in s
  }

  function Bars(s: string): nat {
    if s == [] then 0 else (if s[0] == '|' then 1 else 0) + Bars(s[1..])
  }

  lemma {:induction false} BarsJoin(a: string, b: string)
    ensures Bars(Join(a, b)) == Bars(a) + 1 + Bars(b)
  {
    if a == [] {
      assert Join(a, b)[1..] == b;
    } else {
      BarsJoin(a[1..], b);
      assert Join(a, b)[1..] == Join(a[1..], b);
    }
  }

  lemma {:induction false} BarsPlain(s: string)
    ensures Bars(s) == 0 <==> Plain(s)
  {
    if s != [] { BarsPlain(s[1..]); }
  }

  lemma FirstBar(a: string, x: string, b: string, y: string)
    requires Plain(a) && Plain(b) && Join(a, x) == Join(b, y)
    ensures a == b && x == y
  {
    var s, t := Join(a, x), Join(b, y);
    assert s[|a|] == '|' && t[|b|] == '|';
    assert forall i :: 0 <= i < |a| ==> s[i] == a[i];
    assert forall i :: 0 <= i < |b| ==> t[i] == b[i];
    assert |a| == |b|;
    assert s[..|a|] == a && t[..|b|] == b;
    assert s[|a| + 1..] == x && t[|b| + 1..] == y;
  }

  lemma LastBar(a: string, x: string, b: string, y: string)
    requires Plain(x) && Plain(y) && Join(a, x) == Join(b, y)
    ensures a == b && x == y
  {
    var s, t := Join(a, x), Join(b, y);
    assert s[|a|] == '|' && t[|b|] == '|';
    assert forall i :: |a| < i < |s| ==> s[i] == x[i - |a| - 1];
    assert forall i :: |b| < i < |t| ==> t[i] == y[i - |b| - 1];
    assert |a| == |b|;
    assert s[..|a|] == a && t[..|b|] == b;
    assert s[|a| + 1..] == x && t[|b| + 1..] == y;
  }

  lemma PayloadEndsInWindow(h: string, u: string, c: string, w: string)
    ensures Payload(h, u, c, w) == Join(Join(Join(h, u), c), w)
  {
  }

  /** Whatever the names hold, equal payloads name the same window. */
  lemma PayloadNamesWindow(h1: string, u1: string, c1: string, w1: string, h2: string, u2: string, c2: string,
    w2: string)
    requires Plain(w1) && Plain(w2) && Payload(h1, u1, c1, w1) == Payload(h2, u2, c2, w2)
    ensures w1 == w2
  {
    PayloadEndsInWindow(h1, u1, c1, w1);
    PayloadEndsInWindow(h2, u2, c2, w2);
    LastBar(Join(Join(h1, u1), c1), w1, Join(Join(h2, u2), c2), w2);
  }

  lemma PayloadBars(h: string, u: string, c: string, w: string)
    requires Plain(w)
    ensures Bars(Payload(h, u, c, w)) == 3 + Bars(h) + Bars(u) + Bars(c)
  {
    BarsPlain(w);
    BarsJoin(c, w);
    BarsJoin(u, Join(c, w));
    BarsJoin(h, Join(u, Join(c, w)));
  }

  /** Plain names are told apart from all others. */
  lemma PlainNamesIdentified(h: string, u: string, c: string, w: string, h2: string, u2: string, c2: string, w2: string)
    requires Plain(h) && Plain(u) && Plain(c) && Plain(w) && Plain(w2) && Payload(h2, u2, c2, w2) == Payload(h, u, c, w)
    ensures h2 == h && u2 == u && c2 == c && w2 == w
  {
    PayloadBars(h, u, c, w);
    PayloadBars(h2, u2, c2, w2);
    BarsPlain(h);
    BarsPlain(u);
    BarsPlain(c);
    BarsPlain(h2);
    BarsPlain(u2);
    BarsPlain(c2);
    FirstBar(h, Join(u, Join(c, w)), h2, Join(u2, Join(c2, w2)));
    FirstBar(u, Join(c, w), u2, Join(c2, w2));
    FirstBar(c, w, c2, w2);
  }

  /** The payload determines the dimensions: no other dimensions have it. */
  ghost predicate Identified(h: string, u: string, c: string, w: string) {
    forall h2, u2, c2, w2 :: Plain(w2) && Payload(h2, u2, c2, w2) == Payload(h, u, c, w) ==>
      h2 == h && u2 == u && c2 == c && w2 == w
  }

  /** A payload determines its dimensions exactly when none of the three names holds a separator. */
  lemma IdentifiedIffPlain(h: string, u: string, c: string, w: string)
    requires Plain(w)
    ensures Identified(h, u, c, w) <==> Plain(h) && Plain(u) && Plain(c)
  {
    if Plain(h) && Plain(u) && Plain(c) {
      forall h2, u2, c2, w2 | Plain(w2) && Payload(h2, u2, c2, w2) == Payload(h, u, c, w)
        ensures h2 == h && u2 == u && c2 == c && w2 == w
      {
        PlainNamesIdentified(h, u, c, w, h2, u2, c2, w2);
      }
    } else if !Plain(h) {
      var a, b := SplitAtBar(h);
      assert Payload(a, Join(b, u), c, w) == Payload(h, u, c, w);
      assert |a| < |h|;
    } else if !Plain(u) {
      var a, b := SplitAtBar(u);
      assert Payload(Join(h, a), b, c, w) == Payload(h, u, c, w);
      assert |b| < |u|;
    } else {
      var a, b := SplitAtBar(c);
      assert Payload(h, Join(u, a), b, w) == Payload(h, u, c, w);
      assert |b| < |c|;
    }
  }

  lemma SplitAtBar(s: string) returns (a: string, b: string)
    requires !Plain(s)
    ensures s == Join(a, b)
  {
    var i :| 0 <= i < |s| && s[i] == '|';
    a, b := s[..i], s[i + 1..];
  }

  // ---- keys of alerts ----------------------------------------------------------

  /** Alerts with the same key fall into the same window. */
  lemma KeyNamesWindow(d1: Dims, d2: Dims, cfg: Config)
    requires KeyText(d1, cfg) == KeyText(d2, cfg)
    ensures d1.windowStart == d2.windowStart
  {
    PayloadNamesWindow(d1.host, d1.user, d1.category, cfg.iso(d1.windowStart),
                       d2.host, d2.user, d2.category, cfg.iso(d2.windowStart));
  }

  /** An alert whose names hold no separator shares its key only with alerts of its own dimensions. */
  lemma PlainKeyIdentifies(d1: Dims, d2: Dims, cfg: Config)
    requires Plain(d1.host) && Plain(d1.user) && Plain(d1.category) && KeyText(d1, cfg) == KeyText(d2, cfg)
    ensures d1 == d2
  {
    PlainNamesIdentified(d1.host, d1.user, d1.category, cfg.iso(d1.windowStart),
                         d2.host, d2.user, d2.category, cfg.iso(d2.windowStart));
  }

  predicate PlainName(name: Option<string>) {
    name.None? || Plain(name.value)
  }

  /** Normalizing adds no separator. */
  lemma NormalizePlain(name: Option<string>)
    requires PlainName(name)
    ensures Plain(Normalize(name))
  {
    if name.Some? {
      Text.StripLeftExact(name.value);
      Text.StripRightExact(Text.StripLeft(name.value));
      var s := Text.Strip(name.value);
      forall i | 0 <= i < |s| ensures s[i] != '|' {
        assert s[i] == Text.StripLeft(name.value)[i];
      }
      assert forall i :: 0 <= i < |s| ==> Text.LowerChar(s[i]) != '|';
    }
  }

  /** Plain names and plain sentinels give plain dimensions. */
  lemma PlainDims(host: Option<string>, user: Option<string>, category: Option<string>, occurredAt: int, cfg: Config)
    requires PlainName(host) && PlainName(user) && PlainName(category)
    requires Plain(cfg.unknownHost) && Plain(cfg.unknownUser)
    ensures var d := DimsOf(host, user, category, occurredAt, cfg); Plain(d.host) && Plain(d.user) && Plain(d.category)
  {
    NormalizePlain(host);
    NormalizePlain(user);
    NormalizePlain(category);
    NormalizePlain(Some("uncategorized"));
  }

  /** A name that normalizing leaves alone. */
  predicate Normal(s: string) {
    && s != "" && !Text.IsSpace(s[0]) && !Text.IsSpace(s[|s| - 1])
    && forall i :: 0 <= i < |s| ==> Text.LowerChar(s[i]) == s[i]
  }

  lemma NormalStays(s: string)
    requires Normal(s)
    ensures Normalize(Some(s)) == s
  {
    assert Text.Strip(s) == s;
  }

  lemma JoinNormal(a: string, b: string)
    requires Normal(a) && Normal(b)
    ensures Normal(Join(a, b))
  {
    var s := Join(a, b);
    assert s[0] == a[0] && s[|s| - 1] == b[|b| - 1];
    forall i | 0 <= i < |s| ensures Text.LowerChar(s[i]) == s[i] {
      assert s[i] == if i < |a| then a[i] else if i == |a| then '|' else b[i - |a| - 1];
    }
  }

  /** Moving a separator between two names leaves the payload unchanged. */
  lemma SeparatorMoves(a: string, b: string, c: string, category: string, window: string)
    ensures Payload(Join(a, b), c, category, window) == Payload(a, Join(b, c), category, window)
  {
    var rest := Join(category, window);
    assert Join(Join(a, b), Join(c, rest)) == Join(a, Join(Join(b, c), rest));
  }

  /** Any three names make two alerts of different hosts and users, in any category and window, that
      share a key. */
  lemma KeysCollide(a: string, b: string, c: string, category: Option<string>, occurredAt: int, cfg: Config)
    requires Normal(a) && Normal(b) && Normal(c)
    ensures var d1 := DimsOf(Some(Join(a, b)), Some(c), category, occurredAt, cfg);
      var d2 := DimsOf(Some(a), Some(Join(b, c)), category, occurredAt, cfg);
      d1.host != d2.host && d1.user != d2.user && KeyText(d1, cfg) == KeyText(d2, cfg)
  {
    JoinNormal(a, b);
    JoinNormal(b, c);
    NormalStays(a);
    NormalStays(c);
    NormalStays(Join(a, b));
    NormalStays(Join(b, c));
    var d1 := DimsOf(Some(Join(a, b)), Some(c), category, occurredAt, cfg);
    SeparatorMoves(a, b, c, d1.category, cfg.iso(d1.windowStart));
    assert |Join(a, b)| > |a| && |Join(b, c)| > |c|;
  }

  // ---- which alerts share their key -----------------------------------------------------

  /** A category may normalize to nothing, when it is blank. */
  predicate NormalOrEmpty(s: string) {
    s == "" || Normal(s)
  }

  lemma LowerOnce(c: char)
    ensures Text.LowerChar(Text.LowerChar(c)) == Text.LowerChar(c)
    ensures Text.IsSpace(Text.LowerChar(c)) <==> Text.IsSpace(c)
  {
  }

  lemma StripEnds(s: string)
    ensures var r := Text.Strip(s); r == "" || (!Text.IsSpace(r[0]) && !Text.IsSpace(r[|r| - 1]))
  {
    Text.StripLeftExact(s);
    Text.StripRightExact(Text.StripLeft(s));
    var r := Text.Strip(s);
    assert r != "" ==> r[0] == Text.StripLeft(s)[0];
  }

  lemma LowerNormal(s: string)
    requires s != "" && !Text.IsSpace(s[0]) && !Text.IsSpace(s[|s| - 1])
    ensures Normal(Text.Lower(s))
  {
    forall i | 0 <= i < |s| ensures Text.LowerChar(Text.Lower(s)[i]) == Text.Lower(s)[i] { LowerOnce(s[i]); }
    LowerOnce(s[0]);
    LowerOnce(s[|s| - 1]);
  }

  lemma NormalizeNormal(name: Option<string>)
    ensures NormalOrEmpty(Normalize(name))
  {
    if name.Some? {
      var bare := Text.Strip(name.value);
      StripEnds(name.value);
      if bare != "" { LowerNormal(bare); }
    }
  }

  lemma DimsNormal(host: Option<string>, user: Option<string>, category: Option<string>, occurredAt: int, cfg: Config)
    requires Normal(cfg.unknownHost) && Normal(cfg.unknownUser)
    ensures var d := DimsOf(host, user, category, occurredAt, cfg);
      Normal(d.host) && Normal(d.user) && NormalOrEmpty(d.category)
  {
    NormalizeNormal(host);
    NormalizeNormal(user);
    NormalizeNormal(category);
    NormalizeNormal(Some("uncategorized"));
  }

  /** The three names of an alert as they stand in the payload. */
  function Names(d: Dims): string {
    Join(d.host, Join(d.user, d.category))
  }

  /** A separator with no blank beside it, where a name could end and the next one begin. */
  predicate CleanBar(t: string, k: nat) {
    0 < k < |t| && t[k] == '|' && !Text.IsSpace(t[k - 1]) && (k == |t| - 1 || !Text.IsSpace(t[k + 1]))
  }

  /** Besides the two separators that the code puts in there is one where the names could be cut; a user
      that is a lone separator is no such place. */
  ghost predicate Recuttable(d: Dims) {
    exists k: nat :: CleanBar(Names(d), k) && k != |d.host| && k != |d.host| + 1 + |d.user| &&
      !(d.user == "|" && k == |d.host| + 1)
  }

  lemma CutsAreClean(d: Dims)
    requires Normal(d.host) && Normal(d.user) && NormalOrEmpty(d.category)
    ensures CleanBar(Names(d), |d.host|) && CleanBar(Names(d), |d.host| + 1 + |d.user|)
  {
    var t, q := Names(d), |d.host| + 1 + |d.user|;
    assert t[|d.host| - 1] == d.host[|d.host| - 1] && t[|d.host| + 1] == d.user[0];
    assert t[q - 1] == d.user[|d.user| - 1] && t[q] == '|';
    if d.category != "" { assert t[q + 1] == d.category[0]; }
  }

  /** Equal keys cut the same text, in the same window. */
  lemma SameKeySameNames(d1: Dims, d2: Dims, cfg: Config)
    ensures KeyText(d1, cfg) == KeyText(d2, cfg) <==> d1.windowStart == d2.windowStart && Names(d1) == Names(d2)
  {
    var w1, w2 := cfg.iso(d1.windowStart), cfg.iso(d2.windowStart);
    PayloadEndsInWindow(d1.host, d1.user, d1.category, w1);
    PayloadEndsInWindow(d2.host, d2.user, d2.category, w2);
    assert Names(d1) == Join(Join(d1.host, d1.user), d1.category);
    assert Names(d2) == Join(Join(d2.host, d2.user), d2.category);
    if KeyText(d1, cfg) == KeyText(d2, cfg) {
      KeyNamesWindow(d1, d2, cfg);
      LastBar(Names(d1), w1, Names(d2), w2);
    }
  }

  lemma SameCuts(d1: Dims, d2: Dims)
    requires Names(d1) == Names(d2) && d1.windowStart == d2.windowStart
    requires |d1.host| == |d2.host| && |d1.user| == |d2.user|
    ensures d1 == d2
  {
    var t, p, q := Names(d1), |d1.host|, |d1.host| + 1 + |d1.user|;
    assert t[..p] == d1.host && t[..p] == d2.host;
    assert t[p + 1..q] == d1.user && t[p + 1..q] == d2.user;
    assert t[q + 1..] == d1.category && t[q + 1..] == d2.category;
  }

  /** An alert has its key to itself when its names cannot be cut otherwise. */
  lemma UncuttableIdentified(d1: Dims, d2: Dims, cfg: Config)
    requires Normal(d2.host) && Normal(d2.user) && NormalOrEmpty(d2.category)
    requires Normal(d1.user) && !Recuttable(d1) && KeyText(d2, cfg) == KeyText(d1, cfg)
    ensures d2 == d1
  {
    SameKeySameNames(d1, d2, cfg);
    CutsAreClean(d2);
    var p, q := |d1.host|, |d1.host| + 1 + |d1.user|;
    var i, j := |d2.host|, |d2.host| + 1 + |d2.user|;
    assert CleanBar(Names(d1), i) && CleanBar(Names(d1), j) && i + 1 < j;
    assert i == p || i == q || (d1.user == "|" && i == p + 1);
    assert j == p || j == q || (d1.user == "|" && j == p + 1);
    SameCuts(d1, d2);
  }

  /** The text cut at i and j. */
  function Cut(t: string, i: nat, j: nat, windowStart: int): (d: Dims)
    requires i < j < |t| && t[i] == '|' && t[j] == '|'
    ensures Names(d) == t && |d.host| == i && |d.user| == j - i - 1
  {
    var d := Dims(t[..i], t[i + 1..j], t[j + 1..], windowStart);
    assert t == t[..i] + "|" + (t[i + 1..j] + "|" + t[j + 1..]);
    d
  }

  predicate Lowered(t: string) {
    forall i :: 0 <= i < |t| ==> Text.LowerChar(t[i]) == t[i]
  }

  lemma CutNormal(t: string, i: nat, j: nat, windowStart: int)
    requires Lowered(t) && CleanBar(t, i) && CleanBar(t, j) && i + 1 < j
    requires !Text.IsSpace(t[0]) && !Text.IsSpace(t[|t| - 1])
    ensures var d := Cut(t, i, j, windowStart); Normal(d.host) && Normal(d.user) && NormalOrEmpty(d.category)
  {
    var d := Cut(t, i, j, windowStart);
    assert d.category != "" ==> d.category[0] == t[j + 1] && d.category[|d.category| - 1] == t[|t| - 1];
  }

  lemma NamesNormal(d: Dims)
    requires Normal(d.host) && Normal(d.user) && NormalOrEmpty(d.category)
    ensures var t := Names(d); t != "" && Lowered(t) && !Text.IsSpace(t[0]) && !Text.IsSpace(t[|t| - 1])
  {
    var t, p, q := Names(d), |d.host|, |d.host| + 1 + |d.user|;
    assert t[0] == d.host[0];
    assert d.category != "" ==> t[|t| - 1] == d.category[|d.category| - 1];
    forall i | 0 <= i < |t| ensures Text.LowerChar(t[i]) == t[i] {
      assert t[i] == if i < p then d.host[i] else if i == p then '|' else if i < q then d.user[i - p - 1]
        else if i == q then '|' else d.category[i - q - 1];
    }
  }

  /** Names that can be cut otherwise are shared with other normalized dimensions. */
  lemma RecutShares(d: Dims) returns (d': Dims)
    requires Normal(d.host) && Normal(d.user) && NormalOrEmpty(d.category) && Recuttable(d)
    ensures Normal(d'.host) && Normal(d'.user) && NormalOrEmpty(d'.category)
    ensures d' != d && d'.windowStart == d.windowStart && Names(d') == Names(d)
  {
    var t, p, q := Names(d), |d.host|, |d.host| + 1 + |d.user|;
    var k: nat :| CleanBar(t, k) && k != p && k != q && !(d.user == "|" && k == p + 1);
    CutsAreClean(d);
    NamesNormal(d);
    var first := k < p || k == p + 1;
    var i, j := if first then k else p, if first then q else k;
    CutNormal(t, i, j, d.windowStart);
    d' := Cut(t, i, j, d.windowStart);
  }

  /** Every normalized dimensions are those of some alert. */
  lemma DimsReached(d: Dims, occurredAt: int, cfg: Config) returns (host: string, user: string, category: string)
    requires Normal(d.host) && Normal(d.user) && NormalOrEmpty(d.category)
    requires d.windowStart == FloorToWindow(occurredAt, cfg.hours)
    ensures DimsOf(Some(host), Some(user), Some(category), occurredAt, cfg) == d
  {
    host, user, category := d.host, d.user, if d.category == "" then " " else d.category;
    NormalStays(host);
    NormalStays(user);
    if d.category != "" { NormalStays(category); } else { assert Text.StripLeft(" ") == Text.StripLeft(""); }
  }

  /** No alert of other dimensions has the alert's key. */
  ghost predicate OwnKey(d: Dims, cfg: Config) {
    forall host, user, category, occurredAt ::
      KeyText(DimsOf(host, user, category, occurredAt, cfg), cfg) == KeyText(d, cfg) ==>
      DimsOf(host, user, category, occurredAt, cfg) == d
  }

  /** Among alerts, with stand-ins that normalizing leaves alone, such as the shipped ones, a key is
      shared by different dimensions exactly when the joined names could be cut elsewhere. */
  lemma SharedIffRecuttable(host: Option<string>, user: Option<string>, category: Option<string>, occurredAt: int,
    cfg: Config)
    requires Normal(cfg.unknownHost) && Normal(cfg.unknownUser)
    ensures var d := DimsOf(host, user, category, occurredAt, cfg); OwnKey(d, cfg) <==> !Recuttable(d)
  {
    var d := DimsOf(host, user, category, occurredAt, cfg);
    DimsNormal(host, user, category, occurredAt, cfg);
    if Recuttable(d) {
      var d' := RecutShares(d);
      var h, u, c := DimsReached(d', occurredAt, cfg);
      SameKeySameNames(d, d', cfg);
      assert KeyText(DimsOf(Some(h), Some(u), Some(c), occurredAt, cfg), cfg) == KeyText(d, cfg);
    } else {
      forall h, u, c, at | KeyText(DimsOf(h, u, c, at, cfg), cfg) == KeyText(d, cfg)
        ensures DimsOf(h, u, c, at, cfg) == d
      {
        DimsNormal(h, u, c, at, cfg);
        UncuttableIdentified(d, DimsOf(h, u, c, at, cfg), cfg);
      }
    }
  }
}
