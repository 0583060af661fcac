/** Evidence gathering: the screening sources' parsed payloads, their
    normalisation into canonical records, and the all-or-nothing fan-in.
    A JSON object is modelled by the sequence of its (key, value) entries in
    the order Python iterates them; a key that `.get` finds missing is `None`. */
module Evidence {
  import opened Base

  /** Identity attributes extracted from a document; only the full name and
      the birth date are guaranteed. */
  datatype IdentityInfo = IdentityInfo(
    fullName: string,
    dateOfBirth: string,
    sex: Option<string>,
    altName: Option<string>,
    placeOfBirth: Option<string>,
    placesOfResidence: Option<seq<string>>,
    fathersName: Option<string>,
    mothersName: Option<string>,
    documentType: Option<string>,
    documentNumber: Option<string>,
    dateOfExpiry: Option<string>,
    nationality: Option<string>,
    nationalityCode: Option<string>,
    personalNumber: Option<string>,
    givenNames: Option<string>,
    surname: Option<string>,
    issuingCountry: Option<string>,
    issuingCountryCode: Option<string>)

  // ---------------------------------------------------------------- Watchman

  /** One hit object of a Watchman category. */
  datatype WatchmanHit = WatchmanHit(
    matchScore: Option<real>,           // "match"
    matchedName: Option<string>,        // "matchedName"
    datesOfBirth: Option<string>,       // "DatesOfBirth"
    countries: Option<seq<string>>,     // "Countries"
    nationalities: Option<seq<string>>) // "Nationalities"

  /** The value of a top-level Watchman key: a list of hits, or anything else. */
  datatype WatchmanValue = HitList(hits: seq<WatchmanHit>) | NotAList

  type WatchmanPayload = seq<(string, WatchmanValue)>

  // ----------------------------------------------------------- OpenSanctions

  /** One result of a query in an OpenSanctions match response. */
  datatype SanctionsResult = SanctionsResult(
    score: Option<real>,
    caption: Option<string>,
    datasets: Option<seq<string>>,
    topics: seq<string>)              // properties.topics, [] when absent

  /** The "responses" object: query id to that query's results. */
  type SanctionsPayload = seq<(string, seq<SanctionsResult>)>

  // --------------------------------------------------------------- Dilisense

  datatype Article = Article(
    timestamp: Option<string>,
    headline: Option<string>,
    body: Option<string>,
    sourceLink: Option<string>)

  /** The value of a "news_exposures" category: an object with a hit count
      ("hits", 0 when absent) and articles ([] when absent), or anything else. */
  datatype Exposure = Exposure(hits: int, articles: seq<Article>) | NotAnObject

  type MediaPayload = seq<(string, Exposure)>

  // -------------------------------------------------------- canonical records

  /** The raw source record a match was built from, kept for audit. */
  datatype Details = WatchmanItem(hit: WatchmanHit) | SanctionsItem(result: SanctionsResult)

  /** `ComplianceMatch`; `matchedDateOfBirth` is `None` where the class
      default is used. */
  datatype ComplianceMatch = ComplianceMatch(
    source: string,
    matchScore: real,
    matchedName: string,
    matchedDateOfBirth: Option<string>,
    matchedCountries: seq<string>,
    matchedNationalities: seq<string>,
    lists: seq<string>,
    details: Details,
    riskCategory: Option<string>)

  /** One adverse-media article as the finding dictionary records it. */
  datatype MediaFinding = MediaFinding(
    category: string,
    timestamp: string,
    headline: string,
    body: string,
    sourceLink: string,
    riskLevel: string)

  const Watchman := "Watchman"
  const OpenSanctions := "OpenSanctions"
  const ScoreThreshold: real := 0.8
  const HighRiskCategories: seq<string> := ["terrorism", "financial_crime", "organized_crime"]

  // ------------------------------------------------ Watchman normalisation

  function WatchmanMatch(category: string, hit: WatchmanHit): ComplianceMatch {
    ComplianceMatch(
      Watchman, hit.matchScore.GetOr(0.0), hit.matchedName.GetOr(""),
      Some(hit.datesOfBirth.GetOr("")), hit.countries.GetOr([]), hit.nationalities.GetOr([]),
      [category], WatchmanItem(hit), Some(category))
  }

  function HitMatches(category: string, hits: seq<WatchmanHit>): seq<ComplianceMatch> {
    if hits == [] then []
    else HitMatches(category, hits[..|hits| - 1]) + [WatchmanMatch(category, hits[|hits| - 1])]
  }

  function CategoryMatches(category: string, value: WatchmanValue): seq<ComplianceMatch> {
    if value.HitList? && |value.hits| > 0 then HitMatches(category, value.hits) else []
  }

  /** The matches `check_watchman` builds from a parsed response. */
  function WatchmanMatches(data: WatchmanPayload): (r: seq<ComplianceMatch>)
    ensures forall m :: m in r ==>
      m.source == Watchman && |m.lists| == 1 && m.riskCategory == Some(m.lists[0]) && m.details.WatchmanItem?
  {
    if data == [] then []
    else
      var last := data[|data| - 1];
      HitMatchesShape(last.0, if last.1.HitList? then last.1.hits else []);
      WatchmanMatches(data[..|data| - 1]) + CategoryMatches(last.0, last.1)
  }

  lemma {:induction false} HitMatchesShape(category: string, hits: seq<WatchmanHit>)
    ensures forall m :: m in HitMatches(category, hits) ==>
      m.source == Watchman && m.lists == [category] && m.riskCategory == Some(category) && m.details.WatchmanItem?
  {
    if hits != [] {
      HitMatchesShape(category, hits[..|hits| - 1]);
    }
  }

  /** Every (category, item) pair of a list-valued category, in response order. */
  function WatchmanItems(data: WatchmanPayload): seq<(string, WatchmanHit)> {
    if data == [] then []
    else
      var last := data[|data| - 1];
      var pairs := if last.1.HitList? then seq(|last.1.hits|, k requires 0 <= k < |last.1.hits| => (last.0, last.1.hits[k])) else [];
      WatchmanItems(data[..|data| - 1]) + pairs
  }

  lemma {:induction false} HitMatchesAt(category: string, hits: seq<WatchmanHit>)
    ensures |HitMatches(category, hits)| == |hits|
    ensures forall k :: 0 <= k < |hits| ==> HitMatches(category, hits)[k] == WatchmanMatch(category, hits[k])
  {
    if hits != [] {
      HitMatchesAt(category, hits[..|hits| - 1]);
    }
  }

  /** Watchman normalisation yields exactly one match per item of a
      list-valued category, in order, built from that (category, item). */
  lemma {:induction false} WatchmanOneMatchPerItem(data: WatchmanPayload)
    ensures |WatchmanMatches(data)| == |WatchmanItems(data)|
    ensures forall k :: 0 <= k < |WatchmanItems(data)| ==>
      WatchmanMatches(data)[k] == WatchmanMatch(WatchmanItems(data)[k].0, WatchmanItems(data)[k].1)
  {
    if data != [] {
      var init, last := data[..|data| - 1], data[|data| - 1];
      WatchmanOneMatchPerItem(init);
      var a, b := WatchmanMatches(init), CategoryMatches(last.0, last.1);
      var items := WatchmanItems(init);
      var pairs: seq<(string, WatchmanHit)> :=
        if last.1.HitList? then seq(|last.1.hits|, k requires 0 <= k < |last.1.hits| => (last.0, last.1.hits[k])) else [];
      assert WatchmanMatches(data) == a + b;
      assert WatchmanItems(data) == items + pairs;
      if last.1.HitList? {
        HitMatchesAt(last.0, last.1.hits);
      }
      assert |b| == |pairs|;
      forall k | 0 <= k < |items + pairs|
        ensures (a + b)[k] == WatchmanMatch((items + pairs)[k].0, (items + pairs)[k].1)
      {
        if k >= |items| {
          assert b[k - |items|] == WatchmanMatch(pairs[k - |items|].0, pairs[k - |items|].1);
        }
      }
    }
  }

  /** `check_watchman` after the response is parsed: one match per item of
      every non-empty list-valued category. */
  method CheckWatchman(data: WatchmanPayload) returns (matches: seq<ComplianceMatch>)
    ensures matches == WatchmanMatches(data)
  {
    matches := [];
    var i := 0;
    while i < |data|
      invariant 0 <= i <= |data|
      invariant matches == WatchmanMatches(data[..i])
    {
      var (category, items) := data[i];
      if items.HitList? && |items.hits| > 0 {
        var j := 0;
        while j < |items.hits|
          invariant 0 <= j <= |items.hits|
          invariant matches == WatchmanMatches(data[..i]) + HitMatches(category, items.hits[..j])
        {
          matches := matches + [WatchmanMatch(category, items.hits[j])];
          assert items.hits[..j + 1][..j] == items.hits[..j];
          j := j + 1;
        }
        assert items.hits[..j] == items.hits;
      }
      assert data[..i + 1][..i] == data[..i];
      i := i + 1;
    }
    assert data[..i] == data;
  }

  // ------------------------------------------- OpenSanctions normalisation

  predicate Relevant(result: SanctionsResult) {
    result.score.GetOr(0.0) > ScoreThreshold
  }

  function FirstTopic(topics: seq<string>): Option<string> {
    if |topics| > 0 then Some(topics[0]) else None
  }

  /** The match built from a relevant result; `result["caption"]` and
      `result["datasets"]` raise `KeyError` when absent. */
  function SanctionsMatch(result: SanctionsResult): Result<ComplianceMatch, Exc> {
    if result.caption.None? then Err(Exc(KeyError, "'caption'"))
    else if result.datasets.None? then Err(Exc(KeyError, "'datasets'"))
    else Ok(ComplianceMatch(
      OpenSanctions, result.score.GetOr(0.0), result.caption.value, None, [], [],
      result.datasets.value, SanctionsItem(result), FirstTopic(result.topics)))
  }

  /** All results of all queries, in response order. */
  function SanctionsResults(responses: SanctionsPayload): seq<SanctionsResult> {
    if responses == [] then []
    else SanctionsResults(responses[..|responses| - 1]) + responses[|responses| - 1].1
  }

  /** Converts the relevant results in order; the first failing conversion
      aborts the whole list. */
  function KeepRelevant(results: seq<SanctionsResult>): (r: Result<seq<ComplianceMatch>, Exc>)
    ensures r.Ok? ==> forall m :: m in r.value ==> m.source == OpenSanctions && m.matchScore > ScoreThreshold
  {
    if results == [] then Ok([])
    else
      var last := results[|results| - 1];
      match KeepRelevant(results[..|results| - 1])
      case Err(e) => Err(e)
      case Ok(ms) =>
        if !Relevant(last) then Ok(ms)
        else match SanctionsMatch(last)
          case Err(e) => Err(e)
          case Ok(m) => Ok(ms + [m])
  }

  function SanctionsMatches(responses: SanctionsPayload): Result<seq<ComplianceMatch>, Exc> {
    KeepRelevant(SanctionsResults(responses))
  }

  /** The relevant results, in order: a reference definition for `KeepRelevant`. */
  function RelevantResults(results: seq<SanctionsResult>): seq<SanctionsResult> {
    if results == [] then []
    else
      var last := results[|results| - 1];
      RelevantResults(results[..|results| - 1]) + (if Relevant(last) then [last] else [])
  }

  predicate Convertible(result: SanctionsResult) {
    result.caption.Some? && result.datasets.Some?
  }

  /** OpenSanctions normalisation succeeds exactly when every relevant result
      has a caption and datasets, and then keeps exactly the results scoring
      above 0.8, in order, each carrying its score, caption, datasets and
      first topic. */
  lemma {:induction false} KeepRelevantIsFilter(results: seq<SanctionsResult>)
    ensures forall x :: x in RelevantResults(results) ==> x in results && Relevant(x)
    ensures KeepRelevant(results).Ok? <==> forall x :: x in RelevantResults(results) ==> Convertible(x)
    ensures KeepRelevant(results).Ok? ==>
      var ms, rs := KeepRelevant(results).value, RelevantResults(results);
      |ms| == |rs| &&
      forall k :: 0 <= k < |rs| ==>
        rs[k].score == Some(ms[k].matchScore) && rs[k].caption == Some(ms[k].matchedName) &&
        rs[k].datasets == Some(ms[k].lists) && ms[k].riskCategory == FirstTopic(rs[k].topics) &&
        ms[k].details == SanctionsItem(rs[k])
  {
    if results != [] {
      var init, last := results[..|results| - 1], results[|results| - 1];
      KeepRelevantIsFilter(init);
      assert forall x :: x in init ==> x in results;
      var rs0 := RelevantResults(init);
      var rs := RelevantResults(results);
      if Relevant(last) {
        assert rs == rs0 + [last];
        assert forall x :: x in rs <==> x in rs0 || x == last;
        if KeepRelevant(init).Ok? && Convertible(last) {
          var ms := KeepRelevant(results).value;
          assert ms == KeepRelevant(init).value + [SanctionsMatch(last).value];
        }
      } else {
        assert rs == rs0;
      }
    }
  }

  lemma {:induction false} KeepRelevantErrSticks(a: seq<SanctionsResult>, b: seq<SanctionsResult>)
    requires KeepRelevant(a).Err?
    ensures KeepRelevant(a + b) == KeepRelevant(a)
    decreases |b|
  {
    if b != [] {
      KeepRelevantErrSticks(a, b[..|b| - 1]);
      assert (a + b)[..|a + b| - 1] == a + b[..|b| - 1];
    } else {
      assert a + b == a;
    }
  }

  lemma {:induction false} KeepRelevantStep(results: seq<SanctionsResult>, result: SanctionsResult)
    ensures KeepRelevant(results + [result]) ==
      match KeepRelevant(results)
      case Err(e) => Err(e)
      case Ok(ms) =>
        if !Relevant(result) then Ok(ms)
        else match SanctionsMatch(result) case Err(e) => Err(e) case Ok(m) => Ok(ms + [m])
  {
    assert (results + [result])[..|results|] == results;
  }

  /** `check_opensanctions` after the response is parsed. */
  method CheckOpenSanctions(responses: SanctionsPayload) returns (r: Result<seq<ComplianceMatch>, Exc>)
    ensures r == SanctionsMatches(responses)
  {
    var matches: seq<ComplianceMatch> := [];
    var i := 0;
    while i < |responses|
      invariant 0 <= i <= |responses|
      invariant KeepRelevant(SanctionsResults(responses[..i])) == Ok(matches)
    {
      var results := responses[i].1;
      assert responses[..i + 1][..i] == responses[..i];
      ghost var done := SanctionsResults(responses[..i]);
      assert done + results[..0] == done;
      var j := 0;
      while j < |results|
        invariant 0 <= j <= |results|
        invariant KeepRelevant(done + results[..j]) == Ok(matches)
      {
        var result := results[j];
        ghost var seen := done + results[..j];
        PrefixGrows(done, results, j);
        KeepRelevantStep(seen, result);
        if result.score.GetOr(0.0) > ScoreThreshold {
          if result.caption.None? || result.datasets.None? {
            r := Err(SanctionsMatch(result).error);
            SanctionsErrorIsFinal(responses, i, j);
            return;
          }
          matches := matches + [ComplianceMatch(
            OpenSanctions, result.score.value, result.caption.value, None, [], [],
            result.datasets.value, SanctionsItem(result), FirstTopic(result.topics))];
        }
        j := j + 1;
      }
      assert results[..j] == results;
      i := i + 1;
    }
    assert responses[..i] == responses;
    r := Ok(matches);
  }

  /** A conversion failure at result `j` of query `i` is the outcome of the
      whole normalisation. */
  lemma {:induction false} SanctionsErrorIsFinal(responses: SanctionsPayload, i: nat, j: nat)
    requires i < |responses| && j < |responses[i].1|
    requires KeepRelevant(SanctionsResults(responses[..i]) + responses[i].1[..j + 1]).Err?
    ensures SanctionsMatches(responses) == KeepRelevant(SanctionsResults(responses[..i]) + responses[i].1[..j + 1])
  {
    var done, results := SanctionsResults(responses[..i]), responses[i].1;
    KeepRelevantErrSticks(done + results[..j + 1], results[j + 1..]);
    assert done + results[..j + 1] + results[j + 1..] == done + results;
    assert responses[..i + 1][..i] == responses[..i];
    assert SanctionsResults(responses[..i + 1]) == done + results;
    SanctionsResultsPrefix(responses, i + 1);
    KeepRelevantErrSticks(done + results, SanctionsResults(responses)[|done + results|..]);
  }

  /** The results of a prefix of the queries are a prefix of all results. */
  lemma {:induction false} SanctionsResultsPrefix(responses: SanctionsPayload, n: nat)
    requires n <= |responses|
    ensures |SanctionsResults(responses[..n])| <= |SanctionsResults(responses)|
    ensures SanctionsResults(responses) ==
      SanctionsResults(responses[..n]) + SanctionsResults(responses)[|SanctionsResults(responses[..n])|..]
    decreases |responses| - n
  {
    if n < |responses| {
      SanctionsResultsPrefix(responses, n + 1);
      assert responses[..n + 1][..n] == responses[..n];
    } else {
      assert responses[..n] == responses;
    }
  }

  // ------------------------------------------------- compliance aggregation

  /** `check_compliance_lists`: both sources must succeed; the Watchman
      matches come first. Each source is given as its parsed response or the
      exception its request raised. */
  function Compliance(watchman: Result<WatchmanPayload, Exc>, sanctions: Result<SanctionsPayload, Exc>)
    : Result<seq<ComplianceMatch>, Exc>
  {
    if watchman.Err? then Err(watchman.error)
    else if sanctions.Err? then Err(sanctions.error)
    else match SanctionsMatches(sanctions.value)
      case Err(e) => Err(e)
      case Ok(os) => Ok(WatchmanMatches(watchman.value) + os)
  }

  /** Aggregation is all-or-nothing: it succeeds exactly when both sources
      do, and then returns the Watchman matches followed by the OpenSanctions
      matches, every one of them tagged with one of the two sources. */
  lemma {:induction false} ComplianceAllOrNothing(watchman: Result<WatchmanPayload, Exc>, sanctions: Result<SanctionsPayload, Exc>)
    ensures Compliance(watchman, sanctions).Ok? <==>
      watchman.Ok? && sanctions.Ok? && SanctionsMatches(sanctions.value).Ok?
    ensures Compliance(watchman, sanctions).Ok? ==>
      var ms, ws := Compliance(watchman, sanctions).value, WatchmanMatches(watchman.value);
      ms[..|ws|] == ws && ms[|ws|..] == SanctionsMatches(sanctions.value).value &&
      forall m :: m in ms ==> m.source == Watchman || m.source == OpenSanctions
  {
    if Compliance(watchman, sanctions).Ok? {
      var ms, ws := Compliance(watchman, sanctions).value, WatchmanMatches(watchman.value);
      var os := SanctionsMatches(sanctions.value).value;
      assert ms == ws + os;
      forall m | m in ms ensures m.source == Watchman || m.source == OpenSanctions {
        if m !in ws { assert m in os; }
      }
    }
  }

  /** `check_compliance_lists`. */
  method CheckComplianceLists(watchman: Result<WatchmanPayload, Exc>, sanctions: Result<SanctionsPayload, Exc>)
    returns (r: Result<seq<ComplianceMatch>, Exc>)
    ensures r == Compliance(watchman, sanctions)
  {
    if watchman.Err? {
      return Err(watchman.error);
    }
    var watchmanResults := CheckWatchman(watchman.value);
    if sanctions.Err? {
      return Err(sanctions.error);
    }
    var sanctionsResults := CheckOpenSanctions(sanctions.value);
    if sanctionsResults.Err? {
      return Err(sanctionsResults.error);
    }
    r := Ok(watchmanResults + sanctionsResults.value);
  }

  // ------------------------------------------------ adverse-media findings

  function MediaRiskLevel(category: string): string {
    if category in HighRiskCategories then "high" else "medium"
  }

  /** The finding dictionary built for one article; `article[key]` raises
      `KeyError` for the first absent key. */
  function MediaFindingOf(category: string, a: Article): Result<MediaFinding, Exc> {
    if a.timestamp.None? then Err(Exc(KeyError, "'timestamp'"))
    else if a.headline.None? then Err(Exc(KeyError, "'headline'"))
    else if a.body.None? then Err(Exc(KeyError, "'body'"))
    else if a.sourceLink.None? then Err(Exc(KeyError, "'source_link'"))
    else Ok(MediaFinding(category, a.timestamp.value, a.headline.value, a.body.value,
                         a.sourceLink.value, MediaRiskLevel(category)))
  }

  predicate Reported(e: Exposure) {
    e.Exposure? && e.hits > 0
  }

  /** Every (category, article) pair of a category that is an object with
      a positive hit count, in response order. */
  function MediaArticles(exposures: MediaPayload): seq<(string, Article)> {
    if exposures == [] then []
    else
      var last := exposures[|exposures| - 1];
      MediaArticles(exposures[..|exposures| - 1]) + (if Reported(last.1) then ArticlePairs(last.0, last.1.articles) else [])
  }

  /** `pair` is an article of a reported category of that name. */
  predicate FromReported(exposures: MediaPayload, pair: (string, Article)) {
    exists i :: 0 <= i < |exposures| && exposures[i].0 == pair.0 && Reported(exposures[i].1) &&
      pair.1 in exposures[i].1.articles
  }

  /** Adverse-media normalisation skips every category that is not an
      object or reports no hits: each article it keeps comes from a reported
      category of the same name. */
  lemma {:induction false} MediaArticlesOrigin(exposures: MediaPayload)
    ensures forall k :: 0 <= k < |MediaArticles(exposures)| ==> FromReported(exposures, MediaArticles(exposures)[k])
  {
    if exposures != [] {
      var init, last := exposures[..|exposures| - 1], exposures[|exposures| - 1];
      MediaArticlesOrigin(init);
      var r0, r := MediaArticles(init), MediaArticles(exposures);
      forall k | 0 <= k < |r| ensures FromReported(exposures, r[k]) {
        if k < |r0| {
          assert r[k] == r0[k] && FromReported(init, r0[k]);
          var i :| 0 <= i < |init| && init[i].0 == r0[k].0 && Reported(init[i].1) && r0[k].1 in init[i].1.articles;
          assert exposures[i] == init[i];
        } else {
          assert Reported(last.1);
          var q := k - |r0|;
          assert r[k] == ArticlePairs(last.0, last.1.articles)[q] == (last.0, last.1.articles[q]);
          assert exposures[|exposures| - 1] == last;
        }
      }
    }
  }

  function ArticlePairs(category: string, articles: seq<Article>): (r: seq<(string, Article)>)
    ensures |r| == |articles|
    ensures forall k :: 0 <= k < |r| ==> r[k] == (category, articles[k])
  {
    seq(|articles|, k requires 0 <= k < |articles| => (category, articles[k]))
  }

  lemma {:induction false} MediaArticlesStep(exposures: MediaPayload, i: nat)
    requires i < |exposures|
    ensures MediaArticles(exposures[..i + 1]) == MediaArticles(exposures[..i]) +
      (if Reported(exposures[i].1) then ArticlePairs(exposures[i].0, exposures[i].1.articles) else [])
  {
    assert exposures[..i + 1][..i] == exposures[..i];
  }

  /** Converts the pairs in order; the first failing conversion aborts. */
  function MediaFindingsOf(pairs: seq<(string, Article)>): Result<seq<MediaFinding>, Exc> {
    if pairs == [] then Ok([])
    else match MediaFindingsOf(pairs[..|pairs| - 1])
      case Err(e) => Err(e)
      case Ok(fs) =>
        match MediaFindingOf(pairs[|pairs| - 1].0, pairs[|pairs| - 1].1)
        case Err(e) => Err(e)
        case Ok(f) => Ok(fs + [f])
  }

  lemma {:induction false} MediaFindingsStep(pairs: seq<(string, Article)>, p: (string, Article))
    ensures MediaFindingsOf(pairs + [p]) ==
      match MediaFindingsOf(pairs)
      case Err(e) => Err(e)
      case Ok(fs) => match MediaFindingOf(p.0, p.1) case Err(e) => Err(e) case Ok(f) => Ok(fs + [f])
  {
    assert (pairs + [p])[..|pairs|] == pairs;
  }

  /** `check_adverse_media`, given the parsed response or the exception its
      request raised. */
  function AdverseMedia(fetched: Result<MediaPayload, Exc>): Result<seq<MediaFinding>, Exc> {
    if fetched.Err? then Err(fetched.error) else MediaFindingsOf(MediaArticles(fetched.value))
  }

  /** The article carries all four keys a finding is built from. */
  predicate HasAllKeys(a: Article) {
    a.timestamp.Some? && a.headline.Some? && a.body.Some? && a.sourceLink.Some?
  }

  /** The conversion succeeds exactly when every article carries all four
      keys, and then it gives one finding per article, in order, holding the
      article's timestamp, headline, body and link under its category; the
      risk level is "high" exactly for terrorism, financial crime and
      organised crime, and "medium" otherwise. */
  lemma {:induction false} MediaFindingsShape(pairs: seq<(string, Article)>)
    ensures MediaFindingsOf(pairs).Ok? <==> forall k :: 0 <= k < |pairs| ==> HasAllKeys(pairs[k].1)
    ensures MediaFindingsOf(pairs).Ok? ==>
      var fs := MediaFindingsOf(pairs).value;
      |fs| == |pairs| &&
      forall k :: 0 <= k < |fs| ==>
        fs[k].category == pairs[k].0 &&
        fs[k].timestamp == pairs[k].1.timestamp.value && fs[k].headline == pairs[k].1.headline.value &&
        fs[k].body == pairs[k].1.body.value && fs[k].sourceLink == pairs[k].1.sourceLink.value &&
        (fs[k].riskLevel == "high" <==> fs[k].category in HighRiskCategories) &&
        (fs[k].riskLevel == "medium" <==> fs[k].category !in HighRiskCategories)
  {
    if pairs != [] {
      var init := pairs[..|pairs| - 1];
      MediaFindingsShape(init);
      assert forall k :: 0 <= k < |init| ==> init[k] == pairs[k];
    }
  }

  /** A failed conversion reports the `KeyError` of the first article that
      lacks a key. */
  lemma {:induction false} MediaFindingsFailure(pairs: seq<(string, Article)>)
    ensures MediaFindingsOf(pairs).Err? ==>
      exists k :: 0 <= k < |pairs| && !HasAllKeys(pairs[k].1) &&
        (forall m :: 0 <= m < k ==> HasAllKeys(pairs[m].1)) &&
        MediaFindingsOf(pairs).error == MediaFindingOf(pairs[k].0, pairs[k].1).error
  {
    if pairs != [] {
      var init := pairs[..|pairs| - 1];
      MediaFindingsFailure(init);
      MediaFindingsShape(init);
      assert forall k :: 0 <= k < |init| ==> init[k] == pairs[k];
    }
  }

  /** Conversely, every article of a reported category is kept, at its
      place: after the articles of the categories before it, in its
      category's own order. */
  lemma {:induction false} MediaArticlesComplete(exposures: MediaPayload, i: nat, j: nat)
    requires i < |exposures| && Reported(exposures[i].1) && j < |exposures[i].1.articles|
    ensures var n := |MediaArticles(exposures[..i])|;
      n + j < |MediaArticles(exposures)| &&
      MediaArticles(exposures)[n + j] == (exposures[i].0, exposures[i].1.articles[j])
  {
    MediaArticlesStep(exposures, i);
    MediaArticlesPrefix(exposures, i + 1);
    var n := |MediaArticles(exposures[..i])|;
    assert MediaArticles(exposures[..i + 1])[n + j] == ArticlePairs(exposures[i].0, exposures[i].1.articles)[j];
  }

  lemma {:induction false} MediaFindingsErrSticks(a: seq<(string, Article)>, b: seq<(string, Article)>)
    requires MediaFindingsOf(a).Err?
    ensures MediaFindingsOf(a + b) == MediaFindingsOf(a)
    decreases |b|
  {
    if b != [] {
      MediaFindingsErrSticks(a, b[..|b| - 1]);
      assert (a + b)[..|a + b| - 1] == a + b[..|b| - 1];
    } else {
      assert a + b == a;
    }
  }

  lemma {:induction false} MediaArticlesPrefix(exposures: MediaPayload, n: nat)
    requires n <= |exposures|
    ensures |MediaArticles(exposures[..n])| <= |MediaArticles(exposures)|
    ensures MediaArticles(exposures) ==
      MediaArticles(exposures[..n]) + MediaArticles(exposures)[|MediaArticles(exposures[..n])|..]
    decreases |exposures| - n
  {
    if n < |exposures| {
      MediaArticlesPrefix(exposures, n + 1);
      assert exposures[..n + 1][..n] == exposures[..n];
    } else {
      assert exposures[..n] == exposures;
    }
  }

  /** The findings of one reported category's articles, appended to those
      already gathered; the first article missing a key aborts. */
  method ReportedFindings(category: string, articles: seq<Article>, ghost done: seq<(string, Article)>,
                          gathered: seq<MediaFinding>)
    returns (r: Result<seq<MediaFinding>, Exc>)
    requires MediaFindingsOf(done) == Ok(gathered)
    ensures r == MediaFindingsOf(done + ArticlePairs(category, articles))
  {
    ghost var pairs := ArticlePairs(category, articles);
    var findings := gathered;
    assert done + pairs[..0] == done;
    var j := 0;
    while j < |articles|
      invariant 0 <= j <= |articles|
      invariant MediaFindingsOf(done + pairs[..j]) == Ok(findings)
    {
      var article := articles[j];
      ghost var seen := done + pairs[..j];
      PrefixGrows(done, pairs, j);
      MediaFindingsStep(seen, (category, article));
      if article.timestamp.None? || article.headline.None? || article.body.None? || article.sourceLink.None? {
        r := Err(MediaFindingOf(category, article).error);
        MediaFindingsErrSticks(done + pairs[..j + 1], pairs[j + 1..]);
        PrefixRest(done, pairs, j + 1);
        return;
      }
      findings := findings + [MediaFinding(
        category, article.timestamp.value, article.headline.value, article.body.value,
        article.sourceLink.value,
        if category in HighRiskCategories then "high" else "medium")];
      j := j + 1;
    }
    assert pairs[..j] == pairs;
    r := Ok(findings);
  }

  /** `check_adverse_media`. */
  method CheckAdverseMedia(fetched: Result<MediaPayload, Exc>) returns (r: Result<seq<MediaFinding>, Exc>)
    ensures r == AdverseMedia(fetched)
  {
    if fetched.Err? {
      return Err(fetched.error);
    }
    var exposures := fetched.value;
    var findings: seq<MediaFinding> := [];
    var i := 0;
    while i < |exposures|
      invariant 0 <= i <= |exposures|
      invariant MediaFindingsOf(MediaArticles(exposures[..i])) == Ok(findings)
    {
      var (category, info) := exposures[i];
      MediaArticlesStep(exposures, i);
      if info.Exposure? && info.hits > 0 {
        var outcome := ReportedFindings(category, info.articles, MediaArticles(exposures[..i]), findings);
        if outcome.Err? {
          r := outcome;
          MediaArticlesPrefix(exposures, i + 1);
          MediaFindingsErrSticks(MediaArticles(exposures[..i + 1]),
            MediaArticles(exposures)[|MediaArticles(exposures[..i + 1])|..]);
          return;
        }
        findings := outcome.value;
      } else {
        assert MediaArticles(exposures[..i]) + [] == MediaArticles(exposures[..i]);
      }
      i := i + 1;
    }
    assert exposures[..i] == exposures;
    r := Ok(findings);
  }
}
