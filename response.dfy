/** The assistant's analysis reply (`_process_analysis_response`): collecting
    the reply text and the function-call findings from the thread's messages,
    and reading the risk level, summary and recommendations out of the text
    with the three regular expressions the code uses. */
module AnalysisResponse {
  import opened Base
  import opened Text

  datatype RiskLevel = Low | Medium | High | Critical

  /** The enum member's name, which is how the reply spells the level. */
  function RiskName(l: RiskLevel): string {
    match l
    case Low => "LOW"
    case Medium => "MEDIUM"
    case High => "HIGH"
    case Critical => "CRITICAL"
  }

  /** The enum member's value, which is how a report stores the level. */
  function RiskValue(l: RiskLevel): string {
    match l
    case Low => "low"
    case Medium => "medium"
    case High => "high"
    case Critical => "critical"
  }

  /** `RiskLevel[name]`: lookup by member name, which is case-sensitive. */
  function RiskLevelNamed(name: string): (r: Option<RiskLevel>)
    ensures r.Some? ==> RiskName(r.value) == name
    ensures r.None? ==> forall l :: RiskName(l) != name
  {
    if name == "LOW" then Some(Low)
    else if name == "MEDIUM" then Some(Medium)
    else if name == "HIGH" then Some(High)
    else if name == "CRITICAL" then Some(Critical)
    else None
  }

  /** The reply may spell the level in any case: the token is upper-cased
      before the lookup, so the member's lower-case value is accepted too. */
  lemma {:induction false} LowerCaseLevelAccepted(l: RiskLevel)
    ensures RiskLevelNamed(Upper(RiskValue(l))) == Some(l)
    ensures RiskLevelNamed(Upper(RiskName(l))) == Some(l)
  {
    match l
    case Low => assert Upper("low") == "LOW"; assert Upper("LOW") == "LOW";
    case Medium => assert Upper("medium") == "MEDIUM"; assert Upper("MEDIUM") == "MEDIUM";
    case High => assert Upper("high") == "HIGH"; assert Upper("HIGH") == "HIGH";
    case Critical => assert Upper("critical") == "CRITICAL"; assert Upper("CRITICAL") == "CRITICAL";
  }

  // ------------------------------------------------------------ the parser

  const RiskLabel := "RISK_LEVEL:"
  const SummaryLabel := "SUMMARY:"
  const RecommendationsLabel := "RECOMMENDATIONS:"
  const ProcessingFailed := "Analysis processing failed: "

  /** `RISK_LEVEL:\s*(\w+)` matches at `k`: the label, optional whitespace,
      then at least one word character. */
  predicate RiskMatchAt(s: string, k: nat) {
    OccursAt(s, RiskLabel, k) &&
    var j := SkipSpaces(s, k + |RiskLabel|); j < |s| && IsWordChar(s[j])
  }

  /** The leftmost match of the risk pattern at or after `from`. */
  function FindRiskMatch(s: string, from: nat): (r: Option<nat>)
    ensures r.Some? ==> from <= r.value && RiskMatchAt(s, r.value)
    ensures r.Some? ==> forall k :: from <= k < r.value ==> !RiskMatchAt(s, k)
    ensures r.None? ==> forall k :: from <= k ==> !RiskMatchAt(s, k)
    decreases |s| - from
  {
    if from >= |s| then None
    else if RiskMatchAt(s, from) then Some(from)
    else FindRiskMatch(s, from + 1)
  }

  /** `group(1)` of the risk match: the whole run of word characters after
      the label and its whitespace. */
  function RiskToken(s: string): (r: Option<string>)
    ensures r.None? ==> forall k :: !RiskMatchAt(s, k)
    ensures r.Some? ==> |r.value| > 0 && forall i :: 0 <= i < |r.value| ==> IsWordChar(r.value[i])
  {
    var m := FindRiskMatch(s, 0);
    assert m.Some? ==> RiskMatchAt(s, m.value);
    TokenAt(s, m)
  }

  /** The word read after the label of match `m`, if there is one. */
  function TokenAt(s: string, m: Option<nat>): Option<string>
    requires m.Some? ==> m.value + |RiskLabel| <= |s|
  {
    match m
    case None => None
    case Some(k) => Some(WordAfter(s, k + |RiskLabel|))
  }

  /** `t` is the longest run of word characters after the label at `k`
      and the whitespace that follows it. */
  predicate TokenReadAt(s: string, k: nat, t: string) {
    k + |RiskLabel| <= |s| &&
    var j := SkipSpaces(s, k + |RiskLabel|);
    var e := j + |t|;
    e <= |s| && s[j..e] == t && (e == |s| || !IsWordChar(s[e]))
  }

  /** The token exists exactly when the pattern matches somewhere, and it
      is read at the leftmost match, as long as the word runs. */
  lemma {:induction false} RiskTokenLeftmostMaximal(s: string)
    ensures RiskToken(s).Some? <==> exists k: nat :: RiskMatchAt(s, k)
    ensures RiskToken(s).Some? ==>
      exists k: nat :: RiskMatchAt(s, k) && (forall m: nat :: m < k ==> !RiskMatchAt(s, m)) &&
        TokenReadAt(s, k, RiskToken(s).value)
  {
    match FindRiskMatch(s, 0)
    case None =>
    case Some(k) =>
      var j := SkipSpaces(s, k + |RiskLabel|);
      var e := WordEnd(s, j);
      assert TokenReadAt(s, k, s[j..e]);
  }

  /** Where `$` matches without MULTILINE: at the end, or before a final newline. */
  predicate AtEnd(s: string, e: nat) {
    e == |s| || (e + 1 == |s| && s[e] == '\n')
  }

  /** Where the lazy group of `RECOMMENDATIONS:(.*?)(?=$)` ends: the first
      position from `from` on where `$` matches. */
  function TextEnd(s: string, from: nat): (e: nat)
    requires from <= |s|
    ensures from <= e <= |s| && AtEnd(s, e)
    ensures forall q :: from <= q < e ==> !AtEnd(s, q)
  {
    if from < |s| && s[|s| - 1] == '\n' then |s| - 1 else |s|
  }

  /** Where the lazy group of `SUMMARY:(.*?)(?=RECOMMENDATIONS:|$)` ends:
      the first position from `from` on where the recommendations label
      starts or `$` matches, that is, the earlier of the label's next
      occurrence and the end. */
  function SummaryEnd(s: string, from: nat): (e: nat)
    requires from <= |s|
    ensures from <= e <= |s|
    ensures OccursAt(s, RecommendationsLabel, e) || AtEnd(s, e)
    ensures forall q :: from <= q < e ==> !OccursAt(s, RecommendationsLabel, q) && !AtEnd(s, q)
  {
    var t := TextEnd(s, from);
    match IndexOf(s, RecommendationsLabel, from)
    case Some(e) => if e < t then e else t
    case None => t
  }

  /** The stripped summary section, or `None` when there is no summary label. */
  function Summary(s: string): Option<string> {
    SummaryAt(s, IndexOf(s, SummaryLabel, 0))
  }

  /** The stripped summary section after the label found at `m`, if any. */
  function SummaryAt(s: string, m: Option<nat>): Option<string>
    requires m.Some? ==> m.value + |SummaryLabel| <= |s|
  {
    match m
    case None => None
    case Some(k) => Some(Strip(SummaryText(s, k + |SummaryLabel|)))
  }

  /** What the lazy summary group captures from `from` on. */
  function SummaryText(s: string, from: nat): string
    requires from <= |s|
  {
    s[from..SummaryEnd(s, from)]
  }

  /** The stripped recommendations section, or `None` when there is no label. */
  function Recommendations(s: string): Option<string> {
    match Section(s, RecommendationsLabel)
    case None => None
    case Some(w) => Some(Strip(w))
  }

  /** The text from the first `tag` to the end, as `tag(.*?)(?=$)` captures
      it, or `None` when there is no `tag`. */
  function Section(s: string, tag: string): Option<string> {
    match IndexOf(s, tag, 0)
    case None => None
    case Some(k) => Some(s[k + |tag|..TextEnd(s, k + |tag|)])
  }

  datatype Analysis = Analysis(riskLevel: RiskLevel, summary: string, recommendations: string)

  /** The text-parsing half of `_process_analysis_response`, before its
      errors are wrapped. */
  function ParseAnalysis(s: string): Result<Analysis, Exc> {
    match RiskToken(s)
    case None => Err(Exc(ValueError, "Missing risk assessment in analysis"))
    case Some(token) =>
      match RiskLevelNamed(Upper(token))
      case None => Err(Exc(KeyError, "'" + Upper(token) + "'"))
      case Some(level) =>
        if Summary(s).None? || Recommendations(s).None? then
          Err(Exc(ValueError, "Missing required analysis sections"))
        else Ok(Analysis(level, Summary(s).value, Recommendations(s).value))
  }

  /** The parser accepts a reply exactly when it has a risk token naming a
      level in any case and both section labels; it rejects an unknown
      token with a `KeyError` naming the upper-cased token. */
  lemma {:induction false} ParseAnalysisAccepts(s: string)
    ensures ParseAnalysis(s).Ok? <==>
      RiskToken(s).Some? && RiskLevelNamed(Upper(RiskToken(s).value)).Some? &&
      Contains(s, SummaryLabel) && Contains(s, RecommendationsLabel)
    ensures ParseAnalysis(s).Ok? ==>
      RiskName(ParseAnalysis(s).value.riskLevel) == Upper(RiskToken(s).value) &&
      Trimmed(ParseAnalysis(s).value.summary) && Trimmed(ParseAnalysis(s).value.recommendations)
    ensures RiskToken(s).Some? && RiskLevelNamed(Upper(RiskToken(s).value)).None? ==>
      ParseAnalysis(s) == Err(Exc(KeyError, "'" + Upper(RiskToken(s).value) + "'"))
  {
  }

  // ------------------------------------------------------------ round trip

  const RiskPrefix := "RISK_LEVEL: "
  const SummaryPrefix := "\n\nSUMMARY: "
  const RecommendationsPrefix := "\n\nRECOMMENDATIONS: "

  /** The reply layout the assistant is instructed to use, reduced to the
      three sections the parser reads. */
  function Head(level: RiskLevel): string {
    RiskPrefix + RiskName(level) + SummaryPrefix
  }

  function Render(level: RiskLevel, summary: string, recommendations: string): string {
    Head(level) + (summary + RecommendationsPrefix + recommendations)
  }

  /** What the round trip needs to know about the text before the summary:
      where its colons are, what ends it, and where its summary label is. */
  predicate HeadShape(h: string) {
    |h| >= 17 && h[|h| - 1] == ' ' && h[3] != 'S' && h[|h| - 17] != 'R' &&
    (forall q :: 0 <= q < |h| && h[q] == ':' ==> q == 10 || q == |h| - 2) &&
    OccursAt(h, SummaryLabel, |h| - 9)
  }

  /** Character facts about the level names. */
  lemma {:induction false} NameFacts(level: RiskLevel)
    ensures var name := RiskName(level);
      3 <= |name| <= 8 && !IsSpace(name[0]) &&
      (forall i :: 0 <= i < |name| ==> IsWordChar(name[i]) && !('a' <= name[i] <= 'z') && name[i] != ':') &&
      (6 + |name| < 12 ==> RiskPrefix[6 + |name|] != 'R') &&
      (6 + |name| >= 12 ==> name[|name| - 6] != 'R')
  {
  }

  /** Where each character of the head comes from. */
  lemma {:induction false} HeadLayout(level: RiskLevel)
    ensures var h, name := Head(level), RiskName(level);
      |h| == 23 + |name| &&
      (forall q :: 0 <= q < 12 ==> h[q] == RiskPrefix[q]) &&
      (forall q :: 12 <= q < 12 + |name| ==> h[q] == name[q - 12]) &&
      (forall q :: 12 + |name| <= q < |h| ==> h[q] == SummaryPrefix[q - 12 - |name|])
  {
  }

  /** The head's only colons end its two labels. */
  lemma {:induction false} HeadColons(level: RiskLevel)
    ensures var h := Head(level);
      forall q :: 0 <= q < |h| && h[q] == ':' ==> q == 10 || q == |h| - 2
  {
    HeadLayout(level);
    NameFacts(level);
    assert forall q :: 0 <= q < 12 && RiskPrefix[q] == ':' ==> q == 10;
    assert forall q :: 0 <= q < 11 && SummaryPrefix[q] == ':' ==> q == 9;
  }

  /** The head's labels and its level name, as windows of the head. */
  lemma {:induction false} HeadSlices(level: RiskLevel)
    ensures var h, name := Head(level), RiskName(level);
      |h| == 23 + |name| && h[..11] == RiskLabel && h[12..12 + |name|] == name &&
      h[|h| - 9..|h| - 1] == SummaryLabel
  {
    var name, h := RiskName(level), Head(level);
    var a := RiskPrefix + name;
    SliceLeft(a, SummaryPrefix, 0, 11);
    SliceLeft(RiskPrefix, name, 0, 11);
    assert RiskPrefix[0..11] == RiskLabel;
    SliceRight(a, SummaryPrefix, 2, 10);
    assert SummaryPrefix[2..10] == SummaryLabel;
    SliceLeft(a, SummaryPrefix, 12, 12 + |name|);
    SliceRight(RiskPrefix, name, 0, |name|);
    assert name[0..|name|] == name;
  }

  /** The characters around the head's labels and level name. */
  lemma {:induction false} HeadChars(level: RiskLevel)
    ensures var h, name := Head(level), RiskName(level);
      h[11] == ' ' && h[12 + |name|] == '\n' && h[|h| - 1] == ' ' && h[3] != 'S' && h[|h| - 17] != 'R'
  {
    NameFacts(level);
  }

  lemma {:induction false} HeadFacts(level: RiskLevel)
    ensures var h, name := Head(level), RiskName(level);
      HeadShape(h) && |h| == 23 + |name| &&
      OccursAt(h, RiskLabel, 0) && h[11] == ' ' && h[12..12 + |name|] == name && h[12 + |name|] == '\n' &&
      (forall i :: 0 <= i < |name| ==> IsWordChar(name[i]) && !('a' <= name[i] <= 'z')) &&
      !IsSpace(name[0])
  {
    HeadColons(level);
    HeadSlices(level);
    HeadChars(level);
    NameFacts(level);
  }

  lemma {:induction false} RecommendationsPrefixFacts()
    ensures |RecommendationsPrefix| == 19 && RecommendationsPrefix[0] == '\n' && RecommendationsPrefix[1] == '\n'
    ensures RecommendationsPrefix[2..18] == RecommendationsLabel && RecommendationsPrefix[18] == ' '
    ensures forall j :: 0 <= j < |RecommendationsLabel| ==> RecommendationsLabel[j] != ' ' && RecommendationsLabel[j] != '\n'
    ensures RecommendationsLabel[0] == 'R' && RecommendationsLabel[15] == ':'
  {
  }

  /** The head's own summary label is the first in the reply. */
  lemma {:induction false} SummaryLabelInHead(h: string, rest: string)
    requires HeadShape(h)
    ensures IndexOf(h + rest, SummaryLabel, 0) == Some(|h| - 9)
  {
    forall q | 0 <= q < |h| - 9 ensures !OccursAt(h, SummaryLabel, q) {
      if OccursAt(h, SummaryLabel, q) {
        OccurrenceChar(h, SummaryLabel, q, q + 7);
        OccurrenceChar(h, SummaryLabel, q, q);
      }
    }
    FirstOccurrence(h, SummaryLabel, |h| - 9);
    IndexOfAfterSuffix(h, rest, SummaryLabel);
  }

  /** No recommendations label starts inside the head. */
  lemma {:induction false} NoRecommendationsInHead(h: string, rest: string, q: nat)
    requires HeadShape(h) && q < |h|
    ensures !OccursAt(h + rest, RecommendationsLabel, q)
  {
    RecommendationsPrefixFacts();
    if OccursAt(h + rest, RecommendationsLabel, q) {
      NoStraddle(h, rest, RecommendationsLabel, q);
      OccursInPrefix(h, rest, RecommendationsLabel, q);
      OccurrenceChar(h, RecommendationsLabel, q, q + 15);
      OccurrenceChar(h, RecommendationsLabel, q, q);
    }
  }

  /** No recommendations label starts in the summary or the blank line after
      it, when the summary does not contain one. */
  lemma {:induction false} NoRecommendationsInBody(summary: string, recs: string, q: nat)
    requires !Contains(summary, RecommendationsLabel) && q < |summary| + 2
    ensures !OccursAt(summary + RecommendationsPrefix + recs, RecommendationsLabel, q)
  {
    var tail := RecommendationsPrefix + recs;
    var body := summary + tail;
    assert summary + RecommendationsPrefix + recs == body;
    RecommendationsPrefixFacts();
    assert body[|summary|] == '\n';
    if OccursAt(body, RecommendationsLabel, q) {
      if q + |RecommendationsLabel| <= |summary| {
        OccursInPrefix(summary, tail, RecommendationsLabel, q);
        ContainsWhenOccurs(summary, RecommendationsLabel, q);
      } else if q < |summary| {
        OccurrenceChar(body, RecommendationsLabel, q, |summary|);
      } else {
        OccursShift(summary, tail, RecommendationsLabel, q);
      }
    }
  }

  /** Behind a head the summary group ends where it would end in the text
      that follows the head, shifted by the head's length. */
  lemma {:induction false} SummaryEndAfterHead(h: string, rest: string)
    requires HeadShape(h)
    ensures SummaryEnd(h + rest, |h| - 1) == |h| + SummaryEnd(rest, 0)
  {
    var s := h + rest;
    if rest == [] {
      assert s[|s| - 1] == ' ';
    } else {
      assert s[|s| - 1] == rest[|rest| - 1];
    }
    assert TextEnd(s, |h| - 1) == |h| + TextEnd(rest, 0);
    NoRecommendationsInHead(h, rest, |h| - 1);
    IndexOfSkip(s, RecommendationsLabel, |h| - 1);
    IndexOfShift(h, rest, RecommendationsLabel, 0);
  }

  /** The summary label ends a head, so the summary is the stripped text
      after the head's trailing space up to where the group ends in the
      text that follows the head. */
  lemma {:induction false} SummaryAfterHead(h: string, rest: string)
    requires HeadShape(h)
    ensures Summary(h + rest) == Some(Strip(" " + rest[..SummaryEnd(rest, 0)]))
  {
    var e := SummaryEnd(rest, 0);
    SummaryLabelInHead(h, rest);
    SummaryEndAfterHead(h, rest);
    SpaceThenPrefix(h, rest, e);
    assert |SummaryLabel| == 8;
    SummaryFromParts(h + rest, |h| - 9, |h| - 1, |h| + e, Strip(" " + rest[..e]));
  }

  /** The window from a head's trailing space into the text after it. */
  lemma {:induction false} SpaceThenPrefix(h: string, rest: string, e: nat)
    requires |h| >= 1 && h[|h| - 1] == ' ' && e <= |rest|
    ensures (h + rest)[|h| - 1..|h| + e] == " " + rest[..e]
  {
  }

  /** In the body of a rendered reply the summary group ends at the blank
      line before the recommendations label. */
  lemma {:induction false} RenderedSummaryEnd(summary: string, recs: string)
    requires !Contains(summary, RecommendationsLabel)
    ensures SummaryEnd(summary + RecommendationsPrefix + recs, 0) == |summary| + 2
  {
    BodyRecommendationsLabel(summary, recs);
  }

  /** In the body of a rendered reply the first recommendations label is
      the one the layout puts after the summary. */
  lemma {:induction false} BodyRecommendationsLabel(summary: string, recs: string)
    requires !Contains(summary, RecommendationsLabel)
    ensures IndexOf(summary + RecommendationsPrefix + recs, RecommendationsLabel, 0) == Some(|summary| + 2)
  {
    var body := summary + RecommendationsPrefix + recs;
    RecommendationsPrefixFacts();
    assert body[|summary| + 2..|summary| + 18] == RecommendationsLabel;
    forall q | 0 <= q < |summary| + 2 ensures !OccursAt(body, RecommendationsLabel, q) {
      NoRecommendationsInBody(summary, recs, q);
    }
    FirstOccurrence(body, RecommendationsLabel, |summary| + 2);
  }

  /** The text the summary group captures from a rendered body strips to
      the summary. */
  lemma {:induction false} RenderedSummaryText(summary: string, recs: string)
    requires Trimmed(summary) && !Contains(summary, RecommendationsLabel)
    ensures var body := summary + RecommendationsPrefix + recs;
      Strip(" " + body[..SummaryEnd(body, 0)]) == summary
  {
    var body := summary + RecommendationsPrefix + recs;
    RenderedSummaryEnd(summary, recs);
    RecommendationsPrefixFacts();
    assert body[..|summary| + 2] == summary + "\n\n";
    StripSummaryPadding(" " + body[..|summary| + 2], summary);
  }

  /** `strip()` undoes the padding the layout puts around the summary. */
  lemma {:induction false} StripSummaryPadding(x: string, summary: string)
    requires Trimmed(summary) && x == " " + summary + "\n\n"
    ensures Strip(x) == summary
  {
    StripPadded(" ", summary, "\n\n");
  }

  /** The summary section of a string whose first summary label ends at
      `from` is the stripped text up to where the lazy group ends. */
  lemma {:induction false} SummaryFromParts(s: string, k: nat, from: nat, e: nat, t: string)
    requires IndexOf(s, SummaryLabel, 0) == Some(k) && from == k + |SummaryLabel| <= |s|
    requires SummaryEnd(s, from) == e && from <= e <= |s| && Strip(s[from..e]) == t
    ensures Summary(s) == Some(t)
  {
    var j := IndexOf(s, SummaryLabel, 0).value;
    assert j + |SummaryLabel| == from;
    assert Strip(s[from..SummaryEnd(s, from)]) == t;
  }

  lemma {:induction false} RenderedSummaryOf(h: string, summary: string, recs: string)
    requires HeadShape(h) && Trimmed(summary) && !Contains(summary, RecommendationsLabel)
    ensures Summary(h + (summary + RecommendationsPrefix + recs)) == Some(summary)
  {
    SummaryAfterHead(h, summary + RecommendationsPrefix + recs);
    RenderedSummaryText(summary, recs);
  }

  /** `strip()` undoes the space the layout puts before the recommendations. */
  lemma {:induction false} StripRecommendationsPadding(x: string, recs: string)
    requires Trimmed(recs) && x == " " + recs
    ensures Strip(x) == recs
  {
    StripPadded(" ", recs, "");
    assert " " + recs + "" == " " + recs;
  }

  /** The section after a tag whose first occurrence ends at `from` is the
      text up to where the lazy group ends. */
  lemma {:induction false} SectionFromParts(s: string, tag: string, k: nat, from: nat, e: nat, x: string)
    requires IndexOf(s, tag, 0) == Some(k) && from == k + |tag| <= |s|
    requires TextEnd(s, from) == e && s[from..e] == x
    ensures Section(s, tag) == Some(x)
  {
    var j := IndexOf(s, tag, 0).value;
    assert j + |tag| == from;
  }

  /** The end of text seen from inside the right part of a concatenation. */
  lemma {:induction false} TextEndShift(a: string, b: string, from: nat)
    requires from <= |b|
    ensures TextEnd(a + b, |a| + from) == |a| + TextEnd(b, from)
  {
    if b != [] {
      assert (a + b)[|a + b| - 1] == b[|b| - 1];
    }
  }

  /** No recommendations label starts in the head. */
  lemma {:induction false} NoRecommendationsInHeadAll(h: string, rest: string)
    requires HeadShape(h)
    ensures forall q :: 0 <= q < |h| ==> !OccursAt(h + rest, RecommendationsLabel, q)
  {
    forall q | 0 <= q < |h| ensures !OccursAt(h + rest, RecommendationsLabel, q) {
      NoRecommendationsInHead(h, rest, q);
    }
  }

  /** The section after a tag that `a` does not hold is the one in `b`. */
  lemma {:induction false} SectionBehind(a: string, b: string, tag: string)
    requires IndexOf(a + b, tag, 0) == Shifted(IndexOf(b, tag, 0), |a|)
    ensures Section(a + b, tag) == Section(b, tag)
  {
    match IndexOf(b, tag, 0)
    case None =>
    case Some(k) =>
      var f := k + |tag|;
      var e := TextEnd(b, f);
      TextEndShift(a, b, f);
      SliceRight(a, b, f, e);
      SectionFromParts(a + b, tag, |a| + k, |a| + f, |a| + e, b[f..e]);
  }

  /** No recommendations label starts in a head, so the recommendations
      section of a reply is that of the text after its head. */
  lemma {:induction false} RecommendationsAfterHead(h: string, rest: string)
    requires HeadShape(h)
    ensures Recommendations(h + rest) == Recommendations(rest)
  {
    NoRecommendationsInHeadAll(h, rest);
    IndexOfBehind(h, rest, RecommendationsLabel);
    SectionBehind(h, rest, RecommendationsLabel);
  }

  /** The recommendations section of a rendered body is the recommendations
      behind one space. */
  lemma {:induction false} RenderedRecommendationsSection(summary: string, recs: string)
    requires Trimmed(recs) && !Contains(summary, RecommendationsLabel)
    ensures Section(summary + RecommendationsPrefix + recs, RecommendationsLabel) == Some(" " + recs)
  {
    var body := summary + RecommendationsPrefix + recs;
    var f := |summary| + 18;
    BodyRecommendationsLabel(summary, recs);
    RecommendationsPrefixFacts();
    assert |RecommendationsLabel| == 16;
    assert body[|body| - 1] != '\n' by {
      if recs == [] { assert body[|body| - 1] == ' '; } else { assert body[|body| - 1] == recs[|recs| - 1]; }
    }
    assert body[f..|body|] == " " + recs;
    SectionFromParts(body, RecommendationsLabel, |summary| + 2, f, |body|, " " + recs);
  }

  lemma {:induction false} RenderedRecommendationsOf(h: string, summary: string, recs: string)
    requires HeadShape(h) && Trimmed(recs) && !Contains(summary, RecommendationsLabel)
    ensures Recommendations(h + (summary + RecommendationsPrefix + recs)) == Some(recs)
  {
    RecommendationsAfterHead(h, summary + RecommendationsPrefix + recs);
    RenderedRecommendationsSection(summary, recs);
    StripRecommendationsPadding(" " + recs, recs);
  }

  lemma {:induction false} RenderedRiskToken(level: RiskLevel, rest: string)
    ensures RiskToken(Head(level) + rest) == Some(RiskName(level))
  {
    var h, name := Head(level), RiskName(level);
    var s := h + rest;
    var n := |name|;
    HeadFacts(level);
    OccursInPrefix(h, rest, RiskLabel, 0);
    assert s[11] == ' ' && s[12] == name[0] && s[12 + n] == '\n';
    var j := SkipSpaces(s, 11);
    assert j == 12;
    assert RiskMatchAt(s, 0);
    assert FindRiskMatch(s, 0) == Some(0);
    var e := WordEnd(s, 12);
    forall i | 12 <= i < 12 + n ensures IsWordChar(s[i]) {
      assert s[i] == h[12..12 + n][i - 12];
    }
    assert !IsWordChar(s[12 + n]);
    assert e == 12 + n;
    assert s[12..e] == h[12..12 + n];
  }

  /** Round trip: a reply in the instructed layout parses back to its level,
      summary and recommendations, provided the summary does not itself
      contain the recommendations label and neither section carries
      surrounding whitespace (which `strip()` would remove). */
  lemma {:induction false} ParseRendered(level: RiskLevel, summary: string, recs: string)
    requires Trimmed(summary) && Trimmed(recs) && !Contains(summary, RecommendationsLabel)
    ensures ParseAnalysis(Render(level, summary, recs)) == Ok(Analysis(level, summary, recs))
  {
    HeadFacts(level);
    RenderedRiskToken(level, summary + RecommendationsPrefix + recs);
    RenderedSummaryOf(Head(level), summary, recs);
    RenderedRecommendationsOf(Head(level), summary, recs);
    ParseFromParts(Render(level, summary, recs), level, summary, recs);
  }

  /** The parse of a reply whose token and sections are known. */
  lemma {:induction false} ParseFromParts(s: string, level: RiskLevel, summary: string, recs: string)
    requires RiskToken(s) == Some(RiskName(level))
    requires Summary(s) == Some(summary) && Recommendations(s) == Some(recs)
    ensures ParseAnalysis(s) == Ok(Analysis(level, summary, recs))
  {
    LowerCaseLevelAccepted(level);
  }

  /** Sections are not checked for content: a reply whose summary and
      recommendations are both empty is accepted. */
  lemma {:induction false} EmptySectionsAccepted(level: RiskLevel)
    ensures ParseAnalysis(Render(level, "", "")) == Ok(Analysis(level, "", ""))
  {
    assert !Contains("", RecommendationsLabel);
    ParseRendered(level, "", "");
  }

  /** Text that may stand before the risk line, such as the identity
      verification and match quality lines the instructed layout starts
      with: empty, or ending in a newline, and holding none of the three
      labels the parser looks for. */
  predicate Preamble(p: string) {
    (p == [] || p[|p| - 1] == '\n') &&
    !Contains(p, RiskLabel) && !Contains(p, SummaryLabel) && !Contains(p, RecommendationsLabel)
  }

  /** The risk pattern matches behind a prefix exactly where it matches in
      the text that follows it. */
  lemma {:induction false} RiskMatchShift(p: string, s: string, k: nat)
    ensures RiskMatchAt(p + s, |p| + k) <==> RiskMatchAt(s, k)
  {
    OccursShift(p, s, RiskLabel, |p| + k);
    if OccursAt(s, RiskLabel, k) {
      var f := k + |RiskLabel|;
      SkipSpacesShift(p, s, f);
      var j := SkipSpaces(s, f);
      if j < |s| {
        assert (p + s)[|p| + j] == s[j];
      }
    }
  }

  /** The search for the risk pattern passes over positions where no risk
      label starts. */
  lemma {:induction false} FindRiskMatchPast(t: string, from: nat, to: nat)
    requires from <= to <= |t|
    requires forall q :: from <= q < to ==> !OccursAt(t, RiskLabel, q)
    ensures FindRiskMatch(t, from) == FindRiskMatch(t, to)
    decreases |t| - from
  {
    if from < to {
      assert !OccursAt(t, RiskLabel, from);
      FindRiskMatchPast(t, from + 1, to);
    }
  }

  /** The search for the risk pattern in a text whose matches are those of
      another text moved `d` places right finds that text's match moved
      `d` places right. */
  lemma {:induction false} FindRiskMatchAligned(t: string, s: string, d: nat, k: nat)
    requires |t| == d + |s| && k <= |s|
    requires forall j :: k <= j < |s| ==> (RiskMatchAt(t, d + j) <==> RiskMatchAt(s, j))
    ensures FindRiskMatch(t, d + k) == Shifted(FindRiskMatch(s, k), d)
    decreases |s| - k
  {
    if k < |s| {
      if RiskMatchAt(s, k) {
        assert FindRiskMatch(s, k) == Some(k);
        assert FindRiskMatch(t, d + k) == Some(d + k);
      } else {
        FindRiskMatchAligned(t, s, d, k + 1);
        assert FindRiskMatch(s, k) == FindRiskMatch(s, k + 1);
        assert FindRiskMatch(t, d + k) == FindRiskMatch(t, d + (k + 1));
      }
    } else {
      assert FindRiskMatch(s, k) == None;
      assert FindRiskMatch(t, d + k) == None;
    }
  }

  /** `RiskMatchShift` at every position of the right part. */
  lemma {:induction false} RiskMatchesShift(p: string, s: string)
    ensures forall j :: 0 <= j < |s| ==> (RiskMatchAt(p + s, |p| + j) <==> RiskMatchAt(s, j))
  {
    forall j | 0 <= j < |s| ensures RiskMatchAt(p + s, |p| + j) <==> RiskMatchAt(s, j) {
      RiskMatchShift(p, s, j);
    }
  }

  /** The leftmost risk match behind a prefix in which no risk label
      starts is the shifted leftmost match of the text that follows. */
  lemma {:induction false} FindRiskMatchBehind(p: string, s: string)
    requires forall q :: 0 <= q < |p| ==> !OccursAt(p + s, RiskLabel, q)
    ensures FindRiskMatch(p + s, 0) == Shifted(FindRiskMatch(s, 0), |p|)
  {
    FindRiskMatchPast(p + s, 0, |p|);
    RiskMatchesShift(p, s);
    FindRiskMatchAligned(p + s, s, |p|, 0);
  }

  /** The token read at a match inside the right part of a concatenation
      is the token read at that match in that part. */
  lemma {:induction false} TokenAtShift(p: string, s: string, m: Option<nat>)
    requires m.Some? ==> m.value + |RiskLabel| <= |s|
    ensures TokenAt(p + s, Shifted(m, |p|)) == TokenAt(s, m)
  {
    if m.Some? {
      WordAfterShift(p, s, m.value + |RiskLabel|);
    }
  }

  /** The risk token of a text is not changed by a prefix in which no risk
      label starts. */
  lemma {:induction false} RiskTokenBehind(p: string, s: string)
    requires forall q :: 0 <= q < |p| ==> !OccursAt(p + s, RiskLabel, q)
    ensures RiskToken(p + s) == RiskToken(s)
  {
    FindRiskMatchBehind(p, s);
    var m := FindRiskMatch(s, 0);
    assert m.Some? ==> RiskMatchAt(s, m.value);
    TokenAtShift(p, s, m);
  }

  /** The summary group's end inside the right part of a concatenation. */
  lemma {:induction false} SummaryEndShift(p: string, s: string, from: nat)
    requires from <= |s|
    ensures SummaryEnd(p + s, |p| + from) == |p| + SummaryEnd(s, from)
  {
    TextEndShift(p, s, from);
    IndexOfShift(p, s, RecommendationsLabel, from);
  }

  /** The summary read after a label inside the right part of a
      concatenation is the summary read after it in that part. */
  lemma {:induction false} SummaryAtShift(p: string, s: string, k: nat)
    requires k + |SummaryLabel| <= |s|
    ensures SummaryAt(p + s, Some(|p| + k)) == SummaryAt(s, Some(k))
  {
    SummaryTextShift(p, s, k + |SummaryLabel|);
    SummaryAtSome(s, k);
    SummaryAtSome(p + s, |p| + k);
  }

  lemma {:induction false} SummaryAtSome(s: string, k: nat)
    requires k + |SummaryLabel| <= |s|
    ensures SummaryAt(s, Some(k)) == Some(Strip(SummaryText(s, k + |SummaryLabel|)))
  {
  }

  /** The summary group inside the right part of a concatenation captures
      what it captures in that part. */
  lemma {:induction false} SummaryTextShift(p: string, s: string, from: nat)
    requires from <= |s|
    ensures SummaryText(p + s, |p| + from) == SummaryText(s, from)
  {
    SummaryEndShift(p, s, from);
    SliceRight(p, s, from, SummaryEnd(s, from));
  }

  /** The summary of a text is not changed by a prefix in which no summary
      label starts. */
  lemma {:induction false} SummaryBehind(p: string, s: string)
    requires forall q :: 0 <= q < |p| ==> !OccursAt(p + s, SummaryLabel, q)
    ensures Summary(p + s) == Summary(s)
  {
    IndexOfBehind(p, s, SummaryLabel);
    match IndexOf(s, SummaryLabel, 0)
    case None =>
    case Some(k) =>
      assert IndexOf(p + s, SummaryLabel, 0) == Some(|p| + k);
      SummaryAtShift(p, s, k);
  }

  /** Texts that agree on the risk token and both sections parse alike. */
  lemma {:induction false} ParseFromSameParts(a: string, b: string)
    requires RiskToken(a) == RiskToken(b) && Summary(a) == Summary(b)
    requires Recommendations(a) == Recommendations(b)
    ensures ParseAnalysis(a) == ParseAnalysis(b)
  {
  }

  /** Behind a preamble the risk token and both sections are those of the
      text that follows it. */
  lemma {:induction false} PartsBehind(p: string, s: string)
    requires Preamble(p) && p != []
    ensures RiskToken(p + s) == RiskToken(s) && Summary(p + s) == Summary(s)
    ensures Recommendations(p + s) == Recommendations(s)
  {
    LabelsWithoutBlanks();
    NoOccurrenceBefore(p, s, RiskLabel);
    NoOccurrenceBefore(p, s, SummaryLabel);
    NoOccurrenceBefore(p, s, RecommendationsLabel);
    RiskTokenBehind(p, s);
    SummaryBehind(p, s);
    IndexOfBehind(p, s, RecommendationsLabel);
    SectionBehind(p, s, RecommendationsLabel);
  }

  /** The parse of a reply is not changed by a preamble before it. */
  lemma {:induction false} ParseBehind(p: string, s: string)
    requires Preamble(p)
    ensures ParseAnalysis(p + s) == ParseAnalysis(s)
  {
    if p == [] {
      assert p + s == s;
    } else {
      PartsBehind(p, s);
      ParseFromSameParts(p + s, s);
    }
  }

  /** Round trip for a whole reply in the instructed layout: whatever
      preamble stands before the risk line, the reply parses back to its
      level, summary and recommendations. */
  lemma {:induction false} ParseRenderedAfter(p: string, level: RiskLevel, summary: string, recs: string)
    requires Preamble(p)
    requires Trimmed(summary) && Trimmed(recs) && !Contains(summary, RecommendationsLabel)
    ensures ParseAnalysis(p + Render(level, summary, recs)) == Ok(Analysis(level, summary, recs))
  {
    ParseBehind(p, Render(level, summary, recs));
    ParseRendered(level, summary, recs);
  }

  const IdentityPrefix := "IDENTITY_VERIFICATION: "
  const MatchQualityPrefix := "\n\nMATCH_QUALITY: "

  /** The two lines the instructed layout puts before the risk line, each
      followed by a blank line. */
  function LayoutPreamble(identityQuality: string, matchQuality: string): string {
    IdentityPrefix + identityQuality + MatchQualityPrefix + matchQuality + "\n\n"
  }

  /** The layout's preamble holds a label only if one of the two qualities
      does: each fixed part lacks one of the label's characters, and no
      label spans a space or a newline. */
  lemma {:induction false} LayoutPreambleAvoids(identityQuality: string, matchQuality: string, pat: string, i: nat, j: nat)
    requires |pat| > 0 && ' ' !in pat && '\n' !in pat
    requires i < |pat| && pat[i] !in IdentityPrefix && j < |pat| && pat[j] !in MatchQualityPrefix
    requires !Contains(identityQuality, pat) && !Contains(matchQuality, pat)
    ensures !Contains(LayoutPreamble(identityQuality, matchQuality), pat)
  {
    CharExcludes(IdentityPrefix, pat, i);
    CharExcludes(MatchQualityPrefix, pat, j);
    var x1 := IdentityPrefix + identityQuality;
    var x2 := x1 + MatchQualityPrefix;
    var x3 := x2 + matchQuality;
    NotContainsJoin(IdentityPrefix, identityQuality, pat);
    assert MatchQualityPrefix[0] == '\n';
    NotContainsJoin(x1, MatchQualityPrefix, pat);
    assert x2[|x2| - 1] == ' ';
    NotContainsJoin(x2, matchQuality, pat);
    CharExcludes("\n\n", pat, 0);
    NotContainsJoin(x3, "\n\n", pat);
  }

  /** No label holds a space or a newline. */
  lemma {:induction false} LabelsWithoutBlanks()
    ensures ' ' !in RiskLabel && '\n' !in RiskLabel
    ensures ' ' !in SummaryLabel && '\n' !in SummaryLabel
    ensures ' ' !in RecommendationsLabel && '\n' !in RecommendationsLabel
  {
  }

  /** 'K' and 'M' are missing from the identity line. */
  lemma {:induction false} IdentityPrefixLacksLabelChars()
    ensures RiskLabel[3] !in IdentityPrefix && SummaryLabel[2] !in IdentityPrefix
    ensures RecommendationsLabel[4] !in IdentityPrefix
  {
  }

  /** 'R' and 'S' are missing from the match-quality line. */
  lemma {:induction false} MatchQualityPrefixLacksLabelChars()
    ensures RiskLabel[0] !in MatchQualityPrefix && SummaryLabel[0] !in MatchQualityPrefix
    ensures RecommendationsLabel[0] !in MatchQualityPrefix
  {
  }

  /** The preamble of the instructed layout is accepted before the risk
      line whenever neither quality mentions a label. */
  lemma {:induction false} LayoutPreambleAccepted(identityQuality: string, matchQuality: string)
    requires !Contains(identityQuality, RiskLabel) && !Contains(matchQuality, RiskLabel)
    requires !Contains(identityQuality, SummaryLabel) && !Contains(matchQuality, SummaryLabel)
    requires !Contains(identityQuality, RecommendationsLabel) && !Contains(matchQuality, RecommendationsLabel)
    ensures Preamble(LayoutPreamble(identityQuality, matchQuality))
  {
    LabelsWithoutBlanks();
    IdentityPrefixLacksLabelChars();
    MatchQualityPrefixLacksLabelChars();
    LayoutPreambleAvoids(identityQuality, matchQuality, RiskLabel, 3, 0);
    LayoutPreambleAvoids(identityQuality, matchQuality, SummaryLabel, 2, 0);
    LayoutPreambleAvoids(identityQuality, matchQuality, RecommendationsLabel, 4, 0);
  }

  /** Round trip for the complete instructed layout: identity verification,
      match quality, risk level, summary and recommendations. */
  lemma {:induction false} ParseLayout(identityQuality: string, matchQuality: string,
                                       level: RiskLevel, summary: string, recs: string)
    requires !Contains(identityQuality, RiskLabel) && !Contains(matchQuality, RiskLabel)
    requires !Contains(identityQuality, SummaryLabel) && !Contains(matchQuality, SummaryLabel)
    requires !Contains(identityQuality, RecommendationsLabel) && !Contains(matchQuality, RecommendationsLabel)
    requires Trimmed(summary) && Trimmed(recs) && !Contains(summary, RecommendationsLabel)
    ensures ParseAnalysis(LayoutPreamble(identityQuality, matchQuality) + Render(level, summary, recs)) ==
      Ok(Analysis(level, summary, recs))
  {
    LayoutPreambleAccepted(identityQuality, matchQuality);
    ParseRenderedAfter(LayoutPreamble(identityQuality, matchQuality), level, summary, recs);
  }

  // ------------------------------------------------------ thread messages

  /** The arguments of a function call, as `json.loads` reads them. */
  datatype CallArguments =
    | Decoded(analysisResults: Option<seq<string>>)  // the "analysis_results" entries, when present
    | Undecodable(error: string)                     // str() of the decode error

  /** A message content item: its text when its type is "text", and its
      function call when it has one. */
  datatype Content = Content(text: Option<string>, functionCall: Option<CallArguments>)

  datatype Message = Message(role: string, content: seq<Content>)

  /** The content items of the assistant's messages, in list order. */
  function AssistantContents(messages: seq<Message>): seq<Content> {
    if messages == [] then []
    else
      var last := messages[|messages| - 1];
      AssistantContents(messages[..|messages| - 1]) + (if last.role == "assistant" then last.content else [])
  }

  /** The analysis text seen last and the decoded call arguments so far. */
  datatype Gathered = Gathered(text: string, calls: seq<Option<seq<string>>>)

  /** The message loop: each text item replaces the analysis text, each
      function call is decoded and kept, and the first undecodable call
      aborts. */
  function Gather(contents: seq<Content>): Result<Gathered, Exc> {
    if contents == [] then Ok(Gathered("", []))
    else
      match Gather(contents[..|contents| - 1])
      case Err(e) => Err(e)
      case Ok(g) =>
        var c := contents[|contents| - 1];
        var text := if c.text.Some? then c.text.value else g.text;
        match c.functionCall
        case None => Ok(Gathered(text, g.calls))
        case Some(Undecodable(error)) => Err(Exc(ValueError, error))
        case Some(Decoded(results)) => Ok(Gathered(text, g.calls + [results]))
  }

  predicate UndecodableAt(contents: seq<Content>, k: int)
    requires 0 <= k < |contents|
  {
    contents[k].functionCall.Some? && contents[k].functionCall.value.Undecodable?
  }

  /** The analysis text is that of the last text item (in the order the
      messages are listed), or empty when there is none; the loop fails
      exactly when some call cannot be decoded, with the first such error. */
  lemma {:induction false} GatherMeaning(contents: seq<Content>)
    ensures Gather(contents).Err? <==> exists k :: 0 <= k < |contents| && UndecodableAt(contents, k)
    ensures Gather(contents).Err? ==>
      exists k :: 0 <= k < |contents| && UndecodableAt(contents, k) &&
        Gather(contents).error == Exc(ValueError, contents[k].functionCall.value.error) &&
        forall k' :: 0 <= k' < k ==> !UndecodableAt(contents, k')
    ensures Gather(contents).Ok? ==>
      var t := Gather(contents).value.text;
      (t == "" && forall k :: 0 <= k < |contents| ==> contents[k].text.None?) ||
      exists k :: 0 <= k < |contents| && contents[k].text == Some(t) &&
        forall k' :: k < k' < |contents| ==> contents[k'].text.None?
  {
    if contents != [] {
      var init, c := contents[..|contents| - 1], contents[|contents| - 1];
      var n := |contents| - 1;
      GatherMeaning(init);
      assert forall k :: 0 <= k < n ==> contents[k] == init[k];
      if Gather(init).Err? {
        var k :| 0 <= k < |init| && UndecodableAt(init, k) &&
          Gather(init).error == Exc(ValueError, init[k].functionCall.value.error) &&
          forall k' :: 0 <= k' < k ==> !UndecodableAt(init, k');
        assert contents[k] == init[k] && UndecodableAt(contents, k);
        assert forall k' :: 0 <= k' < k ==> !UndecodableAt(contents, k') by {
          forall k' | 0 <= k' < k ensures !UndecodableAt(contents, k') {
            assert !UndecodableAt(init, k');
          }
        }
      } else if UndecodableAt(contents, n) {
        assert forall k' :: 0 <= k' < n ==> !UndecodableAt(contents, k') by {
          forall k' | 0 <= k' < n ensures !UndecodableAt(contents, k') {
            assert !UndecodableAt(init, k');
          }
        }
      } else {
        assert forall k :: 0 <= k < |contents| ==> !UndecodableAt(contents, k) by {
          forall k | 0 <= k < |contents| ensures !UndecodableAt(contents, k) {
            if k < n { assert !UndecodableAt(init, k); }
          }
        }
        var t := Gather(contents).value.text;
        if c.text.Some? {
          assert contents[n].text == Some(t);
        } else if Gather(init).value.text == "" && forall k :: 0 <= k < n ==> init[k].text.None? {
          assert forall k :: 0 <= k < |contents| ==> contents[k].text.None?;
        } else {
          var k :| 0 <= k < |init| && init[k].text == Some(t) &&
            forall k' :: k < k' < |init| ==> init[k'].text.None?;
          assert contents[k].text == Some(t);
        }
      }
    }
  }

  /** `structured_findings`: the "analysis_results" entries of the decoded
      calls that have one, in order. */
  function StructuredFindings(calls: seq<Option<seq<string>>>): (r: seq<string>)
    ensures forall x :: x in r ==> exists k :: 0 <= k < |calls| && calls[k].Some? && x in calls[k].value
  {
    if calls == [] then []
    else
      var init, last := calls[..|calls| - 1], calls[|calls| - 1];
      var r := StructuredFindings(init) + (if last.Some? then last.value else []);
      assert forall k :: 0 <= k < |init| ==> calls[k] == init[k];
      r
  }

  /** A single call contributes its entries, or nothing when it has none. */
  lemma {:induction false} StructuredFindingsSingle(c: Option<seq<string>>)
    ensures StructuredFindings([c]) == if c.Some? then c.value else []
  {
    assert [c][..0] == [];
  }

  /** The findings of consecutive calls are concatenated in call order. */
  lemma {:induction false} StructuredFindingsAppend(a: seq<Option<seq<string>>>, b: seq<Option<seq<string>>>)
    ensures StructuredFindings(a + b) == StructuredFindings(a) + StructuredFindings(b)
    decreases |b|
  {
    if b == [] {
      assert a + b == a;
    } else {
      var init, last := b[..|b| - 1], b[|b| - 1];
      StructuredFindingsAppend(a, init);
      var tail := if last.Some? then last.value else [];
      assert (a + b)[..|a + b| - 1] == a + init && (a + b)[|a + b| - 1] == last;
      assert StructuredFindings(a + b) == StructuredFindings(a + init) + tail;
      assert StructuredFindings(b) == StructuredFindings(init) + tail;
    }
  }

  /** Conversely, every entry of every call is kept, in its place: after
      the entries of the calls before it and before those of the calls
      after it. */
  lemma {:induction false} StructuredFindingsComplete(calls: seq<Option<seq<string>>>, k: nat)
    requires k < |calls| && calls[k].Some?
    ensures StructuredFindings(calls) ==
      StructuredFindings(calls[..k]) + calls[k].value + StructuredFindings(calls[k + 1..])
    ensures forall x :: x in calls[k].value ==> x in StructuredFindings(calls)
  {
    assert calls == calls[..k] + [calls[k]] + calls[k + 1..];
    StructuredFindingsAppend(calls[..k] + [calls[k]], calls[k + 1..]);
    StructuredFindingsAppend(calls[..k], [calls[k]]);
    StructuredFindingsSingle(calls[k]);
  }

  datatype Processed = Processed(analysis: Analysis, structuredFindings: seq<string>)

  /** `_process_analysis_response` before its `except` clause, given the
      message list the thread returned or the exception listing raised. */
  function ProcessUnwrapped(listed: Result<seq<Message>, Exc>): Result<Processed, Exc> {
    if listed.Err? then Err(listed.error)
    else
      match Gather(AssistantContents(listed.value))
      case Err(e) => Err(e)
      case Ok(g) =>
        match ParseAnalysis(g.text)
        case Err(e) => Err(e)
        case Ok(a) => Ok(Processed(a, StructuredFindings(g.calls)))
  }

  /** `_process_analysis_response`: it succeeds exactly when the listing,
      the gathering of the assistant's contents and the parse all succeed,
      with the parsed analysis and the findings of the decoded calls; every
      failure inside it is re-raised as a `RuntimeError` whose message is
      the processing-failure prefix followed by the original message. */
  function ProcessAnalysis(listed: Result<seq<Message>, Exc>): (r: Result<Processed, Exc>)
    ensures r.Err? ==>
      (r.error.kind == RuntimeError &&
       |r.error.message| >= |ProcessingFailed| && r.error.message[..|ProcessingFailed|] == ProcessingFailed)
    ensures listed.Err? ==> r.Err? && r.error.message == ProcessingFailed + listed.error.message
    ensures listed.Ok? ==>
      var g := Gather(AssistantContents(listed.value));
      (g.Err? ==> r.Err? && r.error.message == ProcessingFailed + g.error.message) &&
      (g.Ok? ==>
        var parsed := ParseAnalysis(g.value.text);
        (parsed.Err? ==> r.Err? && r.error.message == ProcessingFailed + parsed.error.message) &&
        (parsed.Ok? ==> r == Ok(Processed(parsed.value, StructuredFindings(g.value.calls)))))
  {
    match ProcessUnwrapped(listed)
    case Ok(p) => Ok(p)
    case Err(e) => Err(Exc(RuntimeError, ProcessingFailed + e.message))
  }

  lemma {:induction false} AssistantContentsStep(messages: seq<Message>, i: nat)
    requires i < |messages|
    ensures AssistantContents(messages[..i + 1]) == AssistantContents(messages[..i]) +
      (if messages[i].role == "assistant" then messages[i].content else [])
  {
    assert messages[..i + 1][..i] == messages[..i];
  }

  lemma {:induction false} AssistantContentsPrefix(messages: seq<Message>, n: nat)
    requires n <= |messages|
    ensures |AssistantContents(messages[..n])| <= |AssistantContents(messages)|
    ensures AssistantContents(messages) ==
      AssistantContents(messages[..n]) + AssistantContents(messages)[|AssistantContents(messages[..n])|..]
    decreases |messages| - n
  {
    if n < |messages| {
      AssistantContentsPrefix(messages, n + 1);
      assert messages[..n + 1][..n] == messages[..n];
    } else {
      assert messages[..n] == messages;
    }
  }

  lemma {:induction false} GatherStep(contents: seq<Content>, c: Content)
    ensures Gather(contents + [c]) ==
      match Gather(contents)
      case Err(e) => Err(e)
      case Ok(g) =>
        var text := if c.text.Some? then c.text.value else g.text;
        match c.functionCall
        case None => Ok(Gathered(text, g.calls))
        case Some(Undecodable(error)) => Err(Exc(ValueError, error))
        case Some(Decoded(results)) => Ok(Gathered(text, g.calls + [results]))
  {
    assert (contents + [c])[..|contents|] == contents;
  }

  lemma {:induction false} GatherErrSticks(a: seq<Content>, b: seq<Content>)
    requires Gather(a).Err?
    ensures Gather(a + b) == Gather(a)
    decreases |b|
  {
    if b != [] {
      GatherErrSticks(a, b[..|b| - 1]);
      assert (a + b)[..|a + b| - 1] == a + b[..|b| - 1];
    } else {
      assert a + b == a;
    }
  }

  /** The content loop of one assistant message, continuing from what the
      earlier messages gathered. */
  method GatherMessage(contents: seq<Content>, ghost done: seq<Content>, text: string, calls: seq<Option<seq<string>>>)
    returns (r: Result<Gathered, Exc>)
    requires Gather(done) == Ok(Gathered(text, calls))
    ensures r == Gather(done + contents)
  {
    var analysisContent := text;
    var found := calls;
    assert done + contents[..0] == done;
    var j := 0;
    while j < |contents|
      invariant 0 <= j <= |contents|
      invariant Gather(done + contents[..j]) == Ok(Gathered(analysisContent, found))
    {
      var content := contents[j];
      ghost var seen := done + contents[..j];
      assert done + contents[..j + 1] == seen + [content];
      GatherStep(seen, content);
      if content.text.Some? {
        analysisContent := content.text.value;
      }
      if content.functionCall.Some? {
        var call := content.functionCall.value;
        if call.Undecodable? {
          r := Err(Exc(ValueError, call.error));
          GatherErrSticks(done + contents[..j + 1], contents[j + 1..]);
          assert done + contents[..j + 1] + contents[j + 1..] == done + contents;
          return;
        }
        found := found + [call.analysisResults];
      }
      j := j + 1;
    }
    assert contents[..j] == contents;
    r := Ok(Gathered(analysisContent, found));
  }

  /** `_process_analysis_response`. */
  method ProcessAnalysisResponse(listed: Result<seq<Message>, Exc>) returns (r: Result<Processed, Exc>)
    ensures r == ProcessAnalysis(listed)
  {
    if listed.Err? {
      return Err(Exc(RuntimeError, ProcessingFailed + listed.error.message));
    }
    var messages := listed.value;
    var analysisContent := "";
    var calls: seq<Option<seq<string>>> := [];
    var i := 0;
    while i < |messages|
      invariant 0 <= i <= |messages|
      invariant Gather(AssistantContents(messages[..i])) == Ok(Gathered(analysisContent, calls))
    {
      var message := messages[i];
      AssistantContentsStep(messages, i);
      if message.role == "assistant" {
        var gathered := GatherMessage(message.content, AssistantContents(messages[..i]), analysisContent, calls);
        if gathered.Err? {
          AssistantContentsPrefix(messages, i + 1);
          GatherErrSticks(AssistantContents(messages[..i + 1]),
            AssistantContents(messages)[|AssistantContents(messages[..i + 1])|..]);
          return Err(Exc(RuntimeError, ProcessingFailed + gathered.error.message));
        }
        analysisContent := gathered.value.text;
        calls := gathered.value.calls;
      } else {
        assert AssistantContents(messages[..i]) + [] == AssistantContents(messages[..i]);
      }
      i := i + 1;
    }
    assert messages[..i] == messages;
    var parsed := ParseAnalysis(analysisContent);
    if parsed.Err? {
      return Err(Exc(RuntimeError, ProcessingFailed + parsed.error.message));
    }
    var structured: seq<string> := [];
    var k := 0;
    while k < |calls|
      invariant 0 <= k <= |calls|
      invariant structured == StructuredFindings(calls[..k])
    {
      if calls[k].Some? {
        structured := structured + calls[k].value;
      }
      assert calls[..k + 1][..k] == calls[..k];
      k := k + 1;
    }
    assert calls[..k] == calls;
    r := Ok(Processed(parsed.value, structured));
  }
}
