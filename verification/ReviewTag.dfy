/** The tag that ties a human reply to its request: the outgoing message
    (app/human_review/message_builder.py) and the reply parser (app/human_review/reply_parser.py). */
module ReviewTag {
  import opened Wrappers
  import Text

  const TAG_LENGTH: nat := 13

  predicate IsHex(c: char) {
    '0' <= c <= '9' || 'a' <= c <= 'f' || 'A' <= c <= 'F'
  }

  predicate InTag(c: char) {
    c in "#EVT-" || IsHex(c)
  }

  /** A tag starts at position i: the marker and eight hexadecimal digits. */
  predicate TagAt(s: string, i: nat) {
    && i + TAG_LENGTH <= |s| && s[i..i + 5] == "#EVT-"
    && forall j :: i + 5 <= j < i + TAG_LENGTH ==> IsHex(s[j])
  }

  ghost predicate TagFree(s: string) {
    forall i :: 0 <= i < |s| ==> !TagAt(s, i)
  }

  // ---- parsing -------------------------------------------------------------------

  /** The code of the first tag at or after position i, in lower case. */
  function Find(s: string, i: nat): Option<string>
    decreases |s| - i
  {
    if i >= |s| then None
    else if TagAt(s, i) then Some(Text.Lower(s[i + 5..i + TAG_LENGTH]))
    else Find(s, i + 1)
  }

  function ExtractShortCode(s: string): Option<string> {
    Find(s, 0)
  }

  /** The text with every tag removed, scanning from the left. */
  function RemoveTags(s: string): string {
    if s == [] then []
    else if TagAt(s, 0) then RemoveTags(s[TAG_LENGTH..])
    else [s[0]] + RemoveTags(s[1..])
  }

  function ParseReply(raw: string): (Option<string>, string) {
    var cleaned := Text.Strip(RemoveTags(raw));
    (ExtractShortCode(raw), if cleaned != "" then cleaned else Text.Strip(raw))
  }

  /** The first tag decides what is extracted. */
  lemma {:induction false} FindFirst(s: string, i: nat, j: nat)
    requires i <= j && TagAt(s, j) && forall k :: i <= k < j ==> !TagAt(s, k)
    ensures Find(s, i) == Some(Text.Lower(s[j + 5..j + TAG_LENGTH]))
    decreases j - i
  {
    if i < j { FindFirst(s, i + 1, j); }
  }

  lemma {:induction false} FindNothing(s: string, i: nat)
    requires forall k :: i <= k < |s| ==> !TagAt(s, k)
    ensures Find(s, i) == None
    decreases |s| - i
  {
    if i < |s| { FindNothing(s, i + 1); }
  }

  lemma TagChars(s: string, i: nat, j: nat)
    requires TagAt(s, i) && i <= j < i + TAG_LENGTH
    ensures InTag(s[j]) && (j == i <==> s[j] == '#')
  {
    if j < i + 5 { assert s[j] == s[i..i + 5][j - i]; }
  }

  lemma TagWithin(s: string, t: string, i: nat, offset: nat)
    requires offset <= i && i + TAG_LENGTH <= offset + |t| && offset + |t| <= |s| && s[offset..offset + |t|] == t
    ensures TagAt(s, i) <==> TagAt(t, i - offset)
  {
    assert forall j :: offset <= j < offset + |t| ==> s[j] == s[offset..offset + |t|][j - offset];
    assert s[i..i + 5] == t[i - offset..i - offset + 5];
  }

  // ---- building -------------------------------------------------------------------

  /** A request identifier as its 32 hexadecimal digits. */
  type RequestId = s: string | |s| == 32 && forall i :: 0 <= i < 32 ==> IsHex(s[i]) witness seq(32, _ => '0')

  function ShortCode(id: RequestId): string {
    Text.Lower(id[..8])
  }

  /** The text put into one message, already rendered; `reasoning` is cut to 500 characters here. */
  datatype Fields = Fields(
    title: string, risk: string, category: string, host: string, user: string, verdict: string, confidence: string,
    reasoning: string, missing: seq<string>, query: string)

  /** A piece of the message: fixed wording, then the value rendered after it. */
  datatype Part = Part(wording: string, value: string)

  function Append(text: string, part: Part): string {
    text + part.wording + part.value
  }

  /** One "- item" line for each item. */
  function MissingLines(items: seq<string>): string {
    var n := |items|;
    if n == 0 then ""
    else if n == 1 then Append("-", Part(" ", items[0]))
    else Append(MissingLines(items[..n - 1]), Part("\n- ", items[n - 1]))
  }

  function MissingText(items: seq<string>): string {
    var shown := if |items| > 5 then items[..5] else items;
    if shown == [] then "- （无）" else MissingLines(shown)
  }

  function Cut(s: string, n: nat): string {
    if |s| > n then s[..n] else s
  }

  function AppendAll(text: string, parts: seq<Part>): string
    decreases |parts|
  {
    if parts == [] then text else AppendAll(Append(text, parts[0]), parts[1..])
  }

  function Parts(f: Fields): seq<Part> {
    [ Part("\n\n**事件** ", f.title), Part(" | 风险 ", f.risk), Part(" | ", f.category),
      Part("\n**主机** ", f.host), Part(" | **用户** ", f.user),
      Part("\n**Agent 结论** ", f.verdict), Part("（置信度 ", f.confidence),
      Part("）\n\n**已知推理**\n", Cut(f.reasoning, 500)), Part("\n\n**缺失信息**\n", MissingText(f.missing)),
      Part("\n\n**请协助确认**\n", f.query), Part("\n\n---\n请回复并保留标签：", "") ]
  }

  const HEADING: string := "## 安全告警协查请求"

  /** Everything before the tag line. */
  function Preamble(f: Fields): string {
    AppendAll(HEADING, Parts(f))
  }

  function TagLine(short: string): string {
    "`#EVT-" + short + "`\n协查单号：" + short + "\n"
  }

  function Body(f: Fields, short: string): string {
    Preamble(f) + TagLine(short)
  }

  const CUT_MARK: string := "\n...(已截断)"

  /** s[:n] as Python slices it: a negative n counts from the end. */
  function SliceTo(s: string, n: int): (r: string)
    ensures |r| <= |s| && r == s[..|r|]
    ensures |r| == if n >= 0 then Min(n, |s|) else Max(|s| + n, 0)
  {
    if n >= 0 then s[..Min(n, |s|)] else s[..Max(|s| + n, 0)]
  }

  function Message(f: Fields, id: RequestId, maxChars: int): string {
    var body := Body(f, ShortCode(id));
    if |body| > maxChars then SliceTo(body, maxChars - 20) + CUT_MARK else body
  }

  // ---- what a message quotes -----------------------------------------------------------

  /** v stands in s at position i. */
  ghost predicate StandsAt(s: string, i: nat, v: string) {
    i + |v| <= |s| && s[i..i + |v|] == v
  }

  ghost predicate Quotes(s: string, v: string) {
    exists i: nat :: StandsAt(s, i, v)
  }

  lemma QuotesMore(s: string, tail: string, v: string)
    requires Quotes(s, v)
    ensures Quotes(s + tail, v)
  {
    var i: nat :| StandsAt(s, i, v);
    assert (s + tail)[i..i + |v|] == s[i..i + |v|];
    assert StandsAt(s + tail, i, v);
  }

  lemma AppendQuotes(text: string, part: Part)
    ensures Quotes(Append(text, part), part.value)
  {
    assert StandsAt(Append(text, part), |text| + |part.wording|, part.value);
  }

  lemma {:induction false} AppendAllQuotes(text: string, parts: seq<Part>, v: string)
    requires Quotes(text, v) || exists k :: 0 <= k < |parts| && parts[k].value == v
    ensures Quotes(AppendAll(text, parts), v)
    decreases |parts|
  {
    if parts != [] {
      var next := Append(text, parts[0]);
      if Quotes(text, v) {
        AppendKeepsQuotes(text, parts[0], v);
      } else if parts[0].value == v {
        AppendQuotes(text, parts[0]);
      } else {
        var k :| 0 <= k < |parts| && parts[k].value == v;
        assert parts[1..][k - 1].value == v;
      }
      AppendAllQuotes(next, parts[1..], v);
    }
  }

  lemma {:induction false} MissingQuoted(items: seq<string>, k: nat)
    requires k < |items|
    ensures Quotes(MissingLines(items), items[k])
  {
    var n := |items| - 1;
    if n == 0 {
      AppendQuotes("-", Part(" ", items[0]));
    } else if k == n {
      AppendQuotes(MissingLines(items[..n]), Part("\n- ", items[n]));
    } else {
      MissingQuoted(items[..n], k);
      AppendKeepsQuotes(MissingLines(items[..n]), Part("\n- ", items[n]), items[k]);
    }
  }

  lemma AppendKeepsQuotes(text: string, part: Part, v: string)
    requires Quotes(text, v)
    ensures Quotes(Append(text, part), v)
  {
    QuotesMore(text, part.wording + part.value, v);
    assert Append(text, part) == text + (part.wording + part.value);
  }

  lemma QuotesInside(s: string, middle: string, v: string)
    requires Quotes(s, middle) && Quotes(middle, v)
    ensures Quotes(s, v)
  {
    var i: nat :| StandsAt(s, i, middle);
    var j: nat :| StandsAt(middle, j, v);
    var t := s[i + j..i + j + |v|];
    forall k | 0 <= k < |v| ensures t[k] == v[k] {
      assert t[k] == s[i..i + |middle|][j + k] && v[k] == middle[j..j + |v|][k];
    }
    assert StandsAt(s, i + j, v);
  }

  /** The whole body quotes every field of the request, the reasoning up to 500 characters and up to five
      missing items. */
  lemma BodyQuotes(f: Fields, short: string, v: string)
    requires v in [f.title, f.risk, f.category, f.host, f.user, f.verdict, f.confidence, f.query]
      || v == f.reasoning[..Min(500, |f.reasoning|)]
      || exists k :: 0 <= k < |f.missing| && k < 5 && v == f.missing[k]
    ensures Quotes(Body(f, short), v)
  {
    var parts := Parts(f);
    assert parts[0].value == f.title && parts[1].value == f.risk && parts[2].value == f.category;
    assert parts[3].value == f.host && parts[4].value == f.user && parts[5].value == f.verdict;
    assert parts[6].value == f.confidence && parts[7].value == f.reasoning[..Min(500, |f.reasoning|)];
    assert parts[8].value == MissingText(f.missing) && parts[9].value == f.query;
    if exists k :: 0 <= k < |parts| && parts[k].value == v {
      AppendAllQuotes(HEADING, parts, v);
    } else {
      var k :| 0 <= k < |f.missing| && k < 5 && v == f.missing[k];
      MissingQuoted(if |f.missing| > 5 then f.missing[..5] else f.missing, k);
      AppendAllQuotes(HEADING, parts, MissingText(f.missing));
      QuotesInside(Preamble(f), MissingText(f.missing), v);
    }
    QuotesMore(Preamble(f), TagLine(short), v);
  }

  // ---- tag-free text ------------------------------------------------------------------

  /** A separator that no tag can straddle. */
  ghost predicate Breaks(separator: string) {
    separator != "" && !InTag(separator[0]) && '#' !in separator
  }

  lemma AppendTagFree(text: string, part: Part)
    requires TagFree(text) && TagFree(part.value) && Breaks(part.wording)
    ensures TagFree(Append(text, part))
  {
    var s, n, m := Append(text, part), |text|, |text| + |part.wording|;
    assert s[n] == part.wording[0] && forall k :: n <= k < m ==> s[k] == part.wording[k - n];
    forall i | 0 <= i < |s| ensures !TagAt(s, i) {
      if TagAt(s, i) {
        TagChars(s, i, i);
        if i < n && i + TAG_LENGTH <= n {
          TagWithin(s, text, i, 0);
        } else if i < n {
          TagChars(s, i, n);
        } else if i >= m {
          TagWithin(s, part.value, i, m);
        }
      }
    }
  }

  lemma {:induction false} AppendAllTagFree(text: string, parts: seq<Part>)
    requires TagFree(text)
    requires forall k :: 0 <= k < |parts| ==> Breaks(parts[k].wording) && TagFree(parts[k].value)
    ensures TagFree(AppendAll(text, parts))
    decreases |parts|
  {
    if parts != [] {
      AppendTagFree(text, parts[0]);
      AppendAllTagFree(Append(text, parts[0]), parts[1..]);
    }
  }

  lemma SliceTagFree(s: string, n: nat)
    requires TagFree(s) && n <= |s|
    ensures TagFree(s[..n])
  {
    forall i | 0 <= i < n ensures !TagAt(s[..n], i) {
      if TagAt(s[..n], i) { TagWithin(s, s[..n], i, 0); }
    }
  }

  /** Text shorter than a tag, or without its first character, holds none. */
  lemma NoHashTagFree(s: string)
    requires '#' !in s
    ensures TagFree(s)
  {
    forall i | 0 <= i < |s| ensures !TagAt(s, i) {
      if TagAt(s, i) { TagChars(s, i, i); }
    }
  }

  lemma {:induction false} MissingLinesTagFree(items: seq<string>)
    requires forall i :: 0 <= i < |items| ==> TagFree(items[i])
    ensures TagFree(MissingLines(items))
  {
    var n := |items|;
    if n == 1 {
      NoHashTagFree("-");
      AppendTagFree("-", Part(" ", items[0]));
    } else if n > 1 {
      MissingLinesTagFree(items[..n - 1]);
      AppendTagFree(MissingLines(items[..n - 1]), Part("\n- ", items[n - 1]));
    }
  }

  ghost predicate FieldsTagFree(f: Fields) {
    && TagFree(f.title) && TagFree(f.risk) && TagFree(f.category) && TagFree(f.host) && TagFree(f.user)
    && TagFree(f.verdict) && TagFree(f.confidence) && TagFree(f.reasoning) && TagFree(f.query)
    && forall i :: 0 <= i < |f.missing| ==> TagFree(f.missing[i])
  }

  lemma MissingTextTagFree(items: seq<string>)
    requires forall i :: 0 <= i < |items| ==> TagFree(items[i])
    ensures TagFree(MissingText(items))
  {
    NoHashTagFree("- （无）");
    MissingLinesTagFree(if |items| > 5 then items[..5] else items);
  }

  lemma WordingBreaks(f: Fields)
    ensures forall k :: 0 <= k < |Parts(f)| ==> Breaks(Parts(f)[k].wording)
  {
  }

  lemma ValuesTagFree(f: Fields)
    requires FieldsTagFree(f)
    ensures forall k :: 0 <= k < |Parts(f)| ==> TagFree(Parts(f)[k].value)
  {
    SliceTagFree(f.reasoning, |Cut(f.reasoning, 500)|);
    assert Cut(f.reasoning, 500) == f.reasoning[..|Cut(f.reasoning, 500)|];
    MissingTextTagFree(f.missing);
    NoHashTagFree("");
  }

  lemma HeadTagFree(f: Fields)
    requires FieldsTagFree(f)
    ensures TagFree(Preamble(f))
  {
    assert |HEADING| < TAG_LENGTH;
    WordingBreaks(f);
    ValuesTagFree(f);
    AppendAllTagFree(HEADING, Parts(f));
  }

  // ---- the round trip ---------------------------------------------------------------------

  lemma LowerTwice(s: string)
    ensures Text.Lower(Text.Lower(s)) == Text.Lower(s)
  {
  }

  /** The first `keep` characters of a body, possibly followed by the truncation mark. */
  ghost predicate CutBody(s: string, p: string, short: string, keep: nat) {
    && keep <= |p| + 30 == |p + TagLine(short)| && keep <= |s|
    && (forall i :: 0 <= i < keep ==> s[i] == (p + TagLine(short))[i])
    && (forall i :: keep <= i < |s| ==> s[i] != '#')
    && (keep < |s| ==> !InTag(s[keep])) && (keep == |s| ==> keep == |p| + 30)
  }

  /** Cutting a body makes no new tag. */
  lemma NoOtherTag(s: string, p: string, short: string, keep: nat, i: nat)
    requires TagFree(p) && |short| == 8 && (forall k :: 0 <= k < 8 ==> IsHex(short[k]))
    requires CutBody(s, p, short, keep) && i < |s| && i != |p| + 1
    ensures !TagAt(s, i)
  {
    if TagAt(s, i) {
      TagLineShape(p, short);
      TagChars(s, i, i);
      if i + TAG_LENGTH <= |p| && i + TAG_LENGTH <= keep {
        assert s[0..i + TAG_LENGTH] == p[0..i + TAG_LENGTH];
        TagWithin(s, p[..i + TAG_LENGTH], i, 0);
        TagWithin(p, p[..i + TAG_LENGTH], i, 0);
      } else {
        TagChars(s, i, Min(keep, |p|));
      }
    }
  }

  /** The first `keep` characters of a body still contain the whole tag exactly when they reach
      its end, 16 characters before the end of the body. */
  lemma PrefixKeepsTag(s: string, p: string, short: string, keep: nat)
    requires TagFree(p) && |short| == 8 && (forall i :: 0 <= i < 8 ==> IsHex(short[i])) && Text.Lower(short) == short
    requires CutBody(s, p, short, keep)
    ensures ExtractShortCode(s) == if keep >= |p| + 14 then Some(short) else None
  {
    forall i | 0 <= i < |s| && i != |p| + 1 ensures !TagAt(s, i) { NoOtherTag(s, p, short, keep, i); }
    if keep >= |p| + 14 {
      TagAtLine(s, p, short);
      FindFirst(s, 0, |p| + 1);
    } else {
      CutTag(s, p, short, keep);
      FindNothing(s, 0);
    }
  }

  lemma CutTag(s: string, p: string, short: string, keep: nat)
    requires CutBody(s, p, short, keep) && keep < |p| + 14
    ensures !TagAt(s, |p| + 1)
  {
    if TagAt(s, |p| + 1) {
      TagChars(s, |p| + 1, |p| + 1);
      TagChars(s, |p| + 1, keep);
    }
  }

  lemma TagLineShape(p: string, short: string)
    requires |short| == 8 && forall i :: 0 <= i < 8 ==> IsHex(short[i])
    ensures var body := p + TagLine(short);
      && |body| == |p| + 30 && (forall i :: 0 <= i < |p| ==> body[i] == p[i])
      && body[|p|] == '`' && body[|p| + 1..|p| + 6] == "#EVT-" && body[|p| + 6..|p| + 14] == short
      && forall i :: |p| + 2 <= i < |body| ==> body[i] != '#'
  {
    var body := p + TagLine(short);
    assert body[|p|..] == TagLine(short);
    assert TagLine(short)[0] == '`' && TagLine(short)[1..6] == "#EVT-" && TagLine(short)[6..14] == short;
    assert forall i :: 0 <= i < 30 ==> body[|p| + i] == TagLine(short)[i];
  }

  lemma TagAtLine(s: string, p: string, short: string)
    requires |short| == 8 && forall i :: 0 <= i < 8 ==> IsHex(short[i])
    requires |s| >= |p| + 14 && s[..|p| + 14] == (p + TagLine(short))[..|p| + 14]
    ensures TagAt(s, |p| + 1) && s[|p| + 6..|p| + 14] == short
  {
    var n := |p| + 1;
    TagLineShape(p, short);
    assert s[n..n + 5] == s[..|p| + 14][n..n + 5] && s[|p| + 6..|p| + 14] == s[..|p| + 14][|p| + 6..];
    assert forall j :: n + 5 <= j < n + 13 ==> s[j] == short[j - (n + 5)];
  }

  lemma ShortCodeShape(id: RequestId)
    ensures var short := ShortCode(id);
      |short| == 8 && (forall i :: 0 <= i < 8 ==> IsHex(short[i])) && Text.Lower(short) == short
  {
    LowerTwice(id[..8]);
  }

  /** For any request and any tag-free fields, the message parses back to the request's short code
      exactly when it was not truncated, or truncated under one of the limits 4 to 19, whose slice
      bound is negative; every other truncation cuts the tag off. */
  lemma TagSurvivesIff(f: Fields, id: RequestId, maxChars: int)
    requires FieldsTagFree(f)
    ensures var fits := |Body(f, ShortCode(id))| <= maxChars || 4 <= maxChars <= 19;
      ExtractShortCode(Message(f, id, maxChars)) == if fits then Some(ShortCode(id)) else None
  {
    var p, short := Preamble(f), ShortCode(id);
    var body := Body(f, short);
    HeadTagFree(f);
    ShortCodeShape(id);
    TagLineShape(p, short);
    PrefixKeepsTag(Message(f, id, maxChars), p, short,
      if |body| > maxChars then |SliceTo(body, maxChars - 20)| else |body|);
  }

  /** The message respects its limit exactly when it fits or the limit is at least 20; a message
      truncated under such a limit stays 11 characters below it. */
  lemma LimitKeptIff(f: Fields, id: RequestId, maxChars: int)
    ensures |Message(f, id, maxChars)| <= maxChars <==> |Body(f, ShortCode(id))| <= maxChars || maxChars >= 20
    ensures |Body(f, ShortCode(id))| > maxChars >= 20 ==> |Message(f, id, maxChars)| == maxChars - 11
  {
    ShortCodeShape(id);
    TagLineShape(Preamble(f), ShortCode(id));
  }

  /** A tag with any eight hexadecimal digits. */
  ghost predicate IsCode(code: string) {
    |code| == 8 && forall i :: 0 <= i < 8 ==> IsHex(code[i])
  }

  function Tagged(before: string, code: string, after: string): string {
    before + ("#EVT-" + code + after)
  }

  /** The tag of a reply stands where it was written, and no other starts before it. */
  lemma TagStands(before: string, code: string, after: string)
    requires IsCode(code) && TagFree(before)
    ensures var s, n := Tagged(before, code, after), |before|;
      && TagAt(s, n) && s[n + 5..n + TAG_LENGTH] == code && s[n + TAG_LENGTH..] == after
      && forall i :: 0 <= i < n ==> !TagAt(s, i)
  {
    var s, n, tag := Tagged(before, code, after), |before|, "#EVT-" + code;
    assert forall i :: 0 <= i < 13 ==> s[n + i] == tag[i];
    assert s[n..n + 5] == "#EVT-" && s[n + 5..n + 13] == code && s[n + 13..] == after;
    assert forall j :: n + 5 <= j < n + 13 ==> s[j] == code[j - (n + 5)];
    forall i | 0 <= i < n ensures !TagAt(s, i) {
      if TagAt(s, i) {
        if i + TAG_LENGTH <= n {
          assert s[0..n] == before;
          TagWithin(s, before, i, 0);
        } else {
          TagChars(s, i, n);
        }
      }
    }
  }

  lemma {:induction false} RemoveOne(before: string, code: string, after: string)
    requires IsCode(code) && TagFree(before) && TagFree(after)
    ensures RemoveTags(Tagged(before, code, after)) == before + after
  {
    var s := Tagged(before, code, after);
    TagStands(before, code, after);
    if before == [] {
      RemoveNothing(after);
    } else {
      DropFirst(before);
      assert s[1..] == Tagged(before[1..], code, after);
      RemoveOne(before[1..], code, after);
      assert [before[0]] + (before[1..] + after) == before + after;
    }
  }

  lemma DropFirst(s: string)
    requires TagFree(s) && s != ""
    ensures TagFree(s[1..])
  {
    forall i | 0 <= i < |s| - 1 ensures !TagAt(s[1..], i) {
      if TagAt(s[1..], i) { TagWithin(s, s[1..], i + 1, 1); }
    }
  }

  /** A reply with one tag, anywhere, parses to the code of the tag in lower case and to the text around
      it; a reply that holds nothing else is kept as it is. */
  lemma ReplyRoundTrip(before: string, code: string, after: string)
    requires IsCode(code) && TagFree(before) && TagFree(after)
    ensures var raw, rest := Tagged(before, code, after), Text.Strip(before + after);
      ParseReply(raw) == (Some(Text.Lower(code)), if rest != "" then rest else Text.Strip(raw))
  {
    var raw := Tagged(before, code, after);
    TagStands(before, code, after);
    FindFirst(raw, 0, |before|);
    RemoveOne(before, code, after);
  }

  /** So a reply that quotes the tag of a request names that request, in either letter case. */
  lemma ReplyNamesRequest(id: RequestId, before: string, code: string, after: string)
    requires IsCode(code) && TagFree(before) && TagFree(after) && Text.Lower(code) == ShortCode(id)
    ensures ParseReply(Tagged(before, code, after)).0 == Some(ShortCode(id))
  {
    ReplyRoundTrip(before, code, after);
  }

  lemma {:induction false} RemoveNothing(s: string)
    requires TagFree(s)
    ensures RemoveTags(s) == s
  {
    if s != [] {
      DropFirst(s);
      RemoveNothing(s[1..]);
    }
  }
}
