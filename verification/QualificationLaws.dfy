/**
 * From what a crawl and a metrics vendor say to what a publisher's row says, without the bundle in between: the
 * evidence kept, the findings that reject under every weighting, and the figures of the default weighting.
 */
module QualificationLaws {
  import opened Prelude
  import opened Scoring
  import opened Qualification
  import T = Text

  // ---------------------------------------------------------------- the evidence on the row

  /** A live qualification stores exactly what the crawl and the vendor said; only a high vendor spam score adds a marker. */
  lemma LiveEvidenceIsStored(row: Row, w: Weights, s: Snapshot, m: Metrics, ask: Ask)
    requires Qualify(row, w, Some(Live(s, m)), ask).Ok?
    ensures
      var row' := Qualify(row, w, Some(Live(s, m)), ask).value;
      row'.stored.Some?
      && var kept := row'.stored.value.signals;
         kept.reachable == s.reachable && kept.httpStatus == s.statusCode && kept.tlsValid == s.tlsValid
         && kept.hasSubmissionPath == s.submissionPath.Some? && kept.indexable == s.indexable
         && kept.outboundLinks == s.outboundLinks && kept.isPaidOnly == s.paidListing
         && (kept.isFree <==> !s.paidListing && (s.freeListing || row.pricing == Free))
         && kept.authority == m.authority && kept.organicTraffic == m.organicTraffic
         && kept.spamSignals == s.spamSignals + if m.spam.Some? && m.spam.value >= 50.0 then ["vendor_spam_score_high"] else []
  {
    hide Score, Meets, Kept, Hits, CategoryMatches, CountryMatches, LanguageMatches;
  }

  /** The positions of the keywords that are more than white space. */
  function Worded(keywords: seq<string>): set<nat> {
    set i: nat | i < |keywords| && T.Strip(keywords[i], T.SPACES) != ""
  }

  /** Those of them whose trimmed, lower-case form occurs in the text. */
  function Found(keywords: seq<string>, text: string): set<nat> {
    set i: nat | i in Worded(keywords) && T.Contains(text, T.Lower(T.Strip(keywords[i], T.SPACES)))
  }

  lemma WordedGrows(keywords: seq<string>, text: string)
    requires keywords != []
    ensures
      var init, n := keywords[..|keywords| - 1], |keywords| - 1;
      var word := T.Strip(keywords[n], T.SPACES);
      |Worded(keywords)| == |Worded(init)| + (if word != "" then 1 else 0)
      && |Found(keywords, text)| == |Found(init, text)| + (if word != "" && T.Contains(text, T.Lower(word)) then 1 else 0)
  {
    hide T.Strip, T.Lower, T.Contains;
    var init, n := keywords[..|keywords| - 1], |keywords| - 1;
    var word := T.Strip(keywords[n], T.SPACES);
    assert Worded(keywords) == Worded(init) + if word != "" then {n} else {};
    assert Found(keywords, text) == Found(init, text) + if word != "" && T.Contains(text, T.Lower(word)) then {n} else {};
  }

  lemma HitsGrow(words: seq<string>, word: string, text: string)
    ensures Hits(words + [word], text) == Hits(words, text) + if T.Contains(text, word) then 1 else 0
  {
    hide T.Contains;
    assert (words + [word])[..|words|] == words;
  }

  lemma {:induction false} KeywordsCounted(keywords: seq<string>, text: string)
    ensures |Kept(keywords)| == |Worded(keywords)|
    ensures Hits(Kept(keywords), text) == |Found(keywords, text)|
  {
    if keywords == [] {
      assert Worded(keywords) == {} && Found(keywords, text) == {};
    } else {
      hide T.Strip, T.Lower, T.Contains, Worded, Found, Hits;
      var init := keywords[..|keywords| - 1];
      var word := T.Strip(keywords[|keywords| - 1], T.SPACES);
      KeywordsCounted(init, text);
      WordedGrows(keywords, text);
      HitsGrow(Kept(init), T.Lower(word), text);
      assert Kept(init) + [] == Kept(init);
    }
  }

  /** The keyword figures on the row count the caller's worded keywords, and those of them the crawled page contains. */
  lemma KeywordsAreCounted(row: Row, w: Weights, s: Snapshot, m: Metrics, ask: Ask)
    requires Qualify(row, w, Some(Live(s, m)), ask).Ok?
    ensures
      var row' := Qualify(row, w, Some(Live(s, m)), ask).value;
      row'.stored.Some?
      && row'.stored.value.signals.keywordsConsidered == |Worded(ask.keywords)|
      && row'.stored.value.signals.keywordHits == |Found(ask.keywords, s.text)|
  {
    hide Score, Meets, Kept, Hits, Worded, Found, CategoryMatches, CountryMatches, LanguageMatches;
    KeywordsCounted(ask.keywords, s.text);
  }

  // ---------------------------------------------------------------- what rejects whatever the weighting

  predicate IsLinkScheme(signal: string) {
    signal == "paid_links_offered" || signal == "link_scheme" || signal == "pbn_footprint"
  }

  lemma FindingsOf(s: Signals)
    ensures Unreachable in Rejections(s) <==> !s.reachable
    ensures PaidOnly in Rejections(s) <==> s.isPaidOnly
    ensures NoSubmissionPath in Rejections(s) <==> !s.hasSubmissionPath
    ensures LinkSchemeDetected in Rejections(s) <==> exists x :: x in s.spamSignals && IsLinkScheme(x)
    ensures Rejections(s) == [] <==> s.reachable && !s.isPaidOnly && s.hasSubmissionPath && forall x :: x in s.spamSignals ==> !IsLinkScheme(x)
  {
    if x :| x in s.spamSignals && IsLinkScheme(x) {
      var i :| 0 <= i < |s.spamSignals| && s.spamSignals[i] == x;
      assert s.spamSignals[i] in LINK_SCHEMES;
    }
    if HasLinkScheme(s) {
      var i :| 0 <= i < |s.spamSignals| && s.spamSignals[i] in LINK_SCHEMES;
      assert s.spamSignals[i] in s.spamSignals && IsLinkScheme(s.spamSignals[i]);
    }
  }

  /** The findings on the row are those of the crawl, each exactly when its fact holds, and any of them rejects under every weighting. */
  lemma CrawlFindingsReject(row: Row, w: Weights, s: Snapshot, m: Metrics, ask: Ask)
    requires Qualify(row, w, Some(Live(s, m)), ask).Ok?
    ensures
      var row' := Qualify(row, w, Some(Live(s, m)), ask).value;
      row'.stored.Some?
      && var found := row'.stored.value.rejections;
         (Unreachable in found <==> !s.reachable)
         && (PaidOnly in found <==> s.paidListing)
         && (NoSubmissionPath in found <==> s.submissionPath.None?)
         && (LinkSchemeDetected in found <==> exists x :: x in s.spamSignals && IsLinkScheme(x))
         && (!s.reachable || s.paidListing || s.submissionPath.None? || (exists x :: x in s.spamSignals && IsLinkScheme(x)) ==>
               row'.status == Rejected)
  {
    FindingsStored(row, w, Some(Live(s, m)), ask);
    LiveEvidenceIsStored(row, w, s, m, ask);
    var kept := Qualify(row, w, Some(Live(s, m)), ask).value.stored.value.signals;
    FindingsOf(kept);
    hide Qualify, Rejections;
    assert !IsLinkScheme("vendor_spam_score_high");
    assert forall x :: x in kept.spamSignals <==> x in s.spamSignals || (x == "vendor_spam_score_high" && m.spam.Some? && m.spam.value >= 50.0);
  }

  /** The row is QUALIFIED exactly when it has no finding and its own scores reach the thresholds, and REJECTED otherwise. */
  lemma FindingsStored(row: Row, w: Weights, live: Option<Live>, ask: Ask)
    requires Qualify(row, w, live, ask).Ok?
    ensures
      var row' := Qualify(row, w, live, ask).value;
      row'.stored.Some? && row'.quality.Some? && row'.spam.Some?
      && row'.stored.value.rejections == Rejections(row'.stored.value.signals)
      && row'.status == (if row'.stored.value.rejections == [] && row'.quality.value >= w.minQuality
                            && row'.spam.value <= w.maxSpam && row'.stored.value.opportunity >= w.minOpportunity
                         then Qualified else Rejected)
  {
    hide Build, Combined, Clamp, QualityPoints, RelevancePoints, SpamPoints, AuthorityPoints, Rejections;
  }

  /** Only a crawl that found a path sets the submission address, and no qualification touches category, country or language. */
  lemma AddressComesFromTheCrawl(row: Row, w: Weights, live: Option<Live>, ask: Ask)
    requires Qualify(row, w, live, ask).Ok?
    ensures
      var row' := Qualify(row, w, live, ask).value;
      (row'.submissionUrl == if live.Some? && live.value.snapshot.submissionPath.Some? && live.value.snapshot.submissionPath.value != ""
                             then live.value.snapshot.submissionPath else row.submissionUrl)
      && row'.category == row.category && row'.country == row.country && row'.language == row.language
  {
    hide Build, Score, Meets;
  }

  // ---------------------------------------------------------------- the default weighting

  function Worth(earned: bool, points: real): real {
    if earned then points else 0.0
  }

  lemma WholeIsKept(n: int)
    requires 0 <= n <= 100
    ensures Clamp(n as real) == n as real
  {
    assert (n as real * 100.0) == (n * 100) as real;
    ClampLaws(n as real, n as real);
  }

  lemma OverIsFull(x: real)
    requires x >= 100.0
    ensures Clamp(x) == 100.0
  {
    WholeIsKept(100);
    ClampLaws(100.0, x);
    ClampLaws(x, x);
    hide Clamp;
  }

  /** Under the default weights quality is a whole number: 30 reachable, 10 TLS, 25 for a path, 20 for free, 15 for indexable. */
  lemma DefaultQuality(s: Signals)
    ensures Score(s, DEFAULT_WEIGHTS).Ok?
    ensures Score(s, DEFAULT_WEIGHTS).value.quality
         == Worth(s.reachable, 30.0) + Worth(s.tlsValid, 10.0) + Worth(s.hasSubmissionPath, 25.0) + Worth(s.isFree, 20.0) + Worth(s.indexable, 15.0)
  {
    hide Clamp, Combined, RelevancePoints, SpamPoints, Rejections;
    var n := (if s.reachable then 30 else 0) + (if s.tlsValid then 10 else 0) + (if s.hasSubmissionPath then 25 else 0)
             + (if s.isFree then 20 else 0) + (if s.indexable then 15 else 0);
    assert n as real == QualityPoints(s, DEFAULT_WEIGHTS);
    WholeIsKept(n);
  }

  /** Relevance is 12 a keyword up to 60, 20 for the category, 12 for the country, 8 for the language. */
  lemma DefaultRelevance(s: Signals)
    ensures Score(s, DEFAULT_WEIGHTS).Ok?
    ensures Score(s, DEFAULT_WEIGHTS).value.relevance
         == (if s.keywordHits < 5 then 12.0 * s.keywordHits as real else 60.0)
            + Worth(s.categoryMatch, 20.0) + Worth(s.countryMatch, 12.0) + Worth(s.languageMatch, 8.0)
  {
    hide Clamp, Combined, QualityPoints, SpamPoints, Rejections;
    var n := (if s.keywordHits < 5 then 12 * s.keywordHits else 60) + (if s.categoryMatch then 20 else 0)
             + (if s.countryMatch then 12 else 0) + (if s.languageMatch then 8 else 0);
    assert n as real == RelevancePoints(s, DEFAULT_WEIGHTS);
    WholeIsKept(n);
  }

  /** Spam is 22 a signal and 18 for more than 300 outbound links, full at five signals. */
  lemma DefaultSpam(s: Signals)
    ensures Score(s, DEFAULT_WEIGHTS).Ok?
    ensures
      var farm := s.outboundLinks.Some? && s.outboundLinks.value > 300;
      Score(s, DEFAULT_WEIGHTS).value.spam
      == if |s.spamSignals| < 5 && !(|s.spamSignals| == 4 && farm) then 22.0 * |s.spamSignals| as real + Worth(farm, 18.0) else 100.0
  {
    hide Clamp, Combined, QualityPoints, RelevancePoints, Rejections;
    var farm := s.outboundLinks.Some? && s.outboundLinks.value > 300;
    var n := 22 * |s.spamSignals| + if farm then 18 else 0;
    assert n as real == SpamPoints(s, DEFAULT_WEIGHTS);
    if n <= 100 {
      WholeIsKept(n);
    } else {
      OverIsFull(n as real);
    }
  }

  lemma BeyondTheScale(x: real)
    ensures x >= 100.0 ==> Clamp(x) == 100.0
    ensures x <= 0.0 ==> Clamp(x) == 0.0
    ensures 0.0 <= x <= 100.0 ==> x - 0.005 <= Clamp(x) <= x + 0.005
  {
    WholeIsKept(0);
    WholeIsKept(100);
    ClampLaws(x, x);
    ClampLaws(100.0, x);
    ClampLaws(x, 0.0);
    hide Clamp;
  }

  lemma PenaltyIs(p: real, w: Weights)
    ensures Penalty(p, w) == p * w.spam
  {
  }

  lemma CombinedIs(q: real, r: real, p: real, a: real, w: Weights, weighted: real)
    requires Mass(w) > 0.0 && weighted == Average(q, r, a, w)
    ensures
      var exact := weighted - p * w.spam;
      (exact >= 100.0 ==> Combined(q, r, p, a, w) == 100.0) && (exact <= 0.0 ==> Combined(q, r, p, a, w) == 0.0)
      && (0.0 <= exact <= 100.0 ==> exact - 0.005 <= Combined(q, r, p, a, w) <= exact + 0.005)
  {
    hide Average, Penalty, Clamp, Mass;
    PenaltyIs(p, w);
    BeyondTheScale(weighted - Penalty(p, w));
  }

  /**
   * Under any weights the opportunity score is, up to half a hundredth, the average of quality, relevance and authority by
   * their weights less the weighted spam score, brought back into 0-100.
   */
  lemma OpportunityIsTheAverage(s: Signals, w: Weights, weighted: real)
    requires w.quality + w.relevance + w.authority > 0.0 && Score(s, w).Ok?
    requires
      var r := Score(s, w).value;
      weighted == (r.quality * w.quality + r.relevance * w.relevance + r.authority * w.authority) / (w.quality + w.relevance + w.authority)
    ensures
      var r := Score(s, w).value;
      var exact := weighted - r.spam * w.spam;
      (exact >= 100.0 ==> r.opportunity == 100.0) && (exact <= 0.0 ==> r.opportunity == 0.0)
      && (0.0 <= exact <= 100.0 ==> exact - 0.005 <= r.opportunity <= exact + 0.005)
  {
    hide Average, Combined, Clamp, QualityPoints, RelevancePoints, SpamPoints, AuthorityPoints, Rejections;
    var r := Score(s, w).value;
    AverageIs(r.quality, r.relevance, r.authority, w, weighted);
    CombinedIs(r.quality, r.relevance, r.spam, r.authority, w, weighted);
  }

  /** The default bar: no finding, quality from 45, spam up to 50, opportunity from 40; authority counts as 50 when unmeasured. */
  lemma DefaultBar(s: Signals)
    ensures Score(s, DEFAULT_WEIGHTS).Ok?
    ensures
      var r := Score(s, DEFAULT_WEIGHTS).value;
      (Passes(s, DEFAULT_WEIGHTS) <==> Rejections(s) == [] && r.quality >= 45.0 && r.spam <= 50.0 && r.opportunity >= 40.0)
      && (s.authority.None? ==> r.authority == 50.0)
  {
    hide Clamp, Combined, QualityPoints, RelevancePoints, SpamPoints, Rejections;
    WholeIsKept(50);
  }

  /** The default mix: 35 parts quality, 30 relevance and 20 authority, less 15 per cent of the spam score. */
  lemma DefaultMix(s: Signals)
    ensures Score(s, DEFAULT_WEIGHTS).Ok?
    ensures
      var r := Score(s, DEFAULT_WEIGHTS).value;
      var exact := (35.0 * r.quality + 30.0 * r.relevance + 20.0 * r.authority) / 85.0 - 0.15 * r.spam;
      (exact <= 0.0 ==> r.opportunity == 0.0) && (0.0 <= exact <= 100.0 ==> exact - 0.005 <= r.opportunity <= exact + 0.005)
  {
    hide Clamp, Average, Combined, QualityPoints, RelevancePoints, SpamPoints, AuthorityPoints, Rejections;
    var r := Score(s, DEFAULT_WEIGHTS).value;
    var weighted := (r.quality * 0.35 + r.relevance * 0.30 + r.authority * 0.20) / (0.35 + 0.30 + 0.20);
    assert weighted == (35.0 * r.quality + 30.0 * r.relevance + 20.0 * r.authority) / 85.0;
    OpportunityIsTheAverage(s, DEFAULT_WEIGHTS, weighted);
  }

  /** A row's category counts whatever the page says; without one, a page that names one of four marks of a directory does. */
  lemma MatchesAreStored(row: Row, w: Weights, s: Snapshot, m: Metrics, ask: Ask)
    requires Qualify(row, w, Some(Live(s, m)), ask).Ok?
    ensures
      var row' := Qualify(row, w, Some(Live(s, m)), ask).value;
      row'.stored.Some?
      && var kept := row'.stored.value.signals;
         (kept.categoryMatch <==>
            (row.category.Some? && row.category.value != "")
            || (s.text != "" && (T.Contains(s.text, "directory") || T.Contains(s.text, "listings")
                                 || T.Contains(s.text, "business listing") || T.Contains(s.text, "company profiles"))))
         && (!kept.countryMatch <==> row.country.Some? && ask.country.Some? && T.Lower(row.country.value) != T.Lower(ask.country.value))
         && (!kept.languageMatch <==>
               row.language.Some? && ask.language.Some?
               && T.Lower(BeforeDash(row.language.value)) != T.Lower(BeforeDash(ask.language.value)))
  {
    hide Score, Meets, Kept, Hits, BeforeDash, T.Lower, T.Contains;
    MarkersAre(s.text);
  }

  lemma MarkersAre(text: string)
    ensures (exists i :: 0 <= i < |MARKERS| && T.Contains(text, MARKERS[i]))
       <==> T.Contains(text, "directory") || T.Contains(text, "listings") || T.Contains(text, "business listing")
            || T.Contains(text, "company profiles")
  {
    hide T.Contains;
    assert MARKERS[0] == "directory" && MARKERS[1] == "listings" && MARKERS[2] == "business listing" && MARKERS[3] == "company profiles";
  }

  /** The part of a language tag before its first dash. */
  lemma {:induction false} BeforeDashIsPrefix(tag: string)
    ensures BeforeDash(tag) <= tag && '-' !in BeforeDash(tag)
    ensures BeforeDash(tag) == tag || tag[|BeforeDash(tag)|] == '-'
  {
    if tag != "" && tag[0] != '-' {
      BeforeDashIsPrefix(tag[1..]);
    }
  }
}
