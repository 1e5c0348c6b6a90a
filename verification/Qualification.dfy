/**
 * Qualification: folds a crawl, vendor metrics and the stored evidence into one bundle of signals, scores it,
 * and writes scores, evidence, pricing and status onto the publisher's row.
 */
module Qualification {
  import opened Prelude
  import opened Scoring
  import T = Text

  datatype Pricing = Free | Paid | Mixed | UnknownPricing

  datatype Status = Discovered | Qualifying | Qualified | Rejected | Blocked | Archived

  datatype Snapshot = Snapshot(
    reachable: bool, statusCode: Option<int>, tlsValid: bool, text: string, submissionPath: Option<string>,
    outboundLinks: Option<int>, indexable: bool, spamSignals: seq<string>, freeListing: bool, paidListing: bool)

  datatype Metrics = Metrics(authority: Option<real>, organicTraffic: Option<int>, spam: Option<real>)

  /** What a live qualification gathers; without it the stored evidence is used. */
  datatype Live = Live(snapshot: Snapshot, metrics: Metrics)

  datatype Ask = Ask(keywords: seq<string>, country: Option<string>, language: Option<string>)

  datatype Stored = Stored(signals: Signals, opportunity: real, rejections: seq<Reason>)

  /** The fields of a publisher's row that qualification reads or writes. */
  datatype Row = Row(
    status: Status, pricing: Pricing, category: Option<string>, country: Option<string>, language: Option<string>,
    submissionUrl: Option<string>, quality: Option<real>, relevance: Option<real>, spam: Option<real>,
    authority: Option<real>, organicTraffic: Option<int>, stored: Option<Stored>)

  const VENDOR_SPAM := "vendor_spam_score_high"

  const MARKERS := ["directory", "listings", "business listing", "company profiles"]

  // ---------------------------------------------------------------- building the signals

  function Kept(keywords: seq<string>): seq<string> {
    if keywords == [] then []
    else
      var word := T.Strip(keywords[|keywords| - 1], T.SPACES);
      Kept(keywords[..|keywords| - 1]) + if word == "" then [] else [T.Lower(word)]
  }

  function Hits(keywords: seq<string>, text: string): nat {
    if keywords == [] then 0
    else Hits(keywords[..|keywords| - 1], text) + if T.Contains(text, keywords[|keywords| - 1]) then 1 else 0
  }

  predicate CategoryMatches(row: Row, text: string) {
    (row.category.Some? && row.category.value != "")
    || (text != "" && exists i :: 0 <= i < |MARKERS| && T.Contains(text, MARKERS[i]))
  }

  predicate CountryMatches(own: Option<string>, target: Option<string>) {
    target.None? || own.None? || T.Lower(own.value) == T.Lower(target.value)
  }

  function BeforeDash(s: string): string {
    if s == "" || s[0] == '-' then "" else [s[0]] + BeforeDash(s[1..])
  }

  predicate LanguageMatches(own: Option<string>, target: Option<string>) {
    target.None? || own.None? || T.Lower(BeforeDash(own.value)) == T.Lower(BeforeDash(target.value))
  }

  const NO_EVIDENCE := Signals(
    false, None, false, false, false, false, true, 0, 0, false, false, false, None, None, [], None)

  /** The evidence on the row, or the defaults of a row never scored. */
  function Known(row: Row): Signals {
    if row.stored.Some? then row.stored.value.signals else NO_EVIDENCE
  }

  predicate VendorSpam(m: Metrics) {
    m.spam.Some? && m.spam.value >= 50.0
  }

  function WithVendorSpam(signals: seq<string>, m: Metrics): seq<string> {
    if VendorSpam(m) then signals + [VENDOR_SPAM] else signals
  }

  function Build(row: Row, live: Option<Live>, ask: Ask): Signals {
    var kept := Kept(ask.keywords);
    match live
    case None =>
      var k := Known(row);
      k.(isFree := !k.isPaidOnly && row.pricing == Free,
         keywordHits := Hits(kept, ""), keywordsConsidered := |kept|,
         categoryMatch := CategoryMatches(row, ""),
         countryMatch := CountryMatches(row.country, ask.country),
         languageMatch := LanguageMatches(row.language, ask.language))
    case Some(Live(s, m)) =>
      Signals(
        s.reachable, s.statusCode, s.tlsValid, s.submissionPath.Some?,
        !s.paidListing && (s.freeListing || row.pricing == Free), s.paidListing, s.indexable,
        Hits(kept, s.text), |kept|,
        CategoryMatches(row, s.text), CountryMatches(row.country, ask.country), LanguageMatches(row.language, ask.language),
        m.authority, m.organicTraffic, WithVendorSpam(s.spamSignals, m), s.outboundLinks)
  }

  // ---------------------------------------------------------------- writing the outcome

  function PricingAfter(before: Pricing, s: Signals): Pricing {
    if s.isPaidOnly then Paid else if s.isFree && s.hasSubmissionPath then Free else before
  }

  function SubmissionUrlAfter(before: Option<string>, live: Option<Live>): Option<string> {
    if live.Some? && live.value.snapshot.submissionPath.Some? && live.value.snapshot.submissionPath.value != ""
    then live.value.snapshot.submissionPath else before
  }

  function Written(row: Row, s: Signals, r: Scores, live: Option<Live>, w: Weights): Row {
    row.(
      quality := Some(r.quality), relevance := Some(r.relevance), spam := Some(r.spam), authority := Some(r.authority),
      organicTraffic := if s.organicTraffic.Some? then s.organicTraffic else row.organicTraffic,
      stored := Some(Stored(s, r.opportunity, r.rejections)),
      pricing := PricingAfter(row.pricing, s),
      submissionUrl := SubmissionUrlAfter(row.submissionUrl, live),
      status := if Meets(r, w) then Qualified else Rejected)
  }

  /** One qualification, from row to row; without positive weight it fails. */
  function Qualify(row: Row, w: Weights, live: Option<Live>, ask: Ask): Result<Row, Error> {
    var s := Build(row, live, ask);
    match Score(s, w)
    case Err(e) => Err(e)
    case Ok(r) => Ok(Written(row, s, r, live, w))
  }

  predicate IsSubmittable(row: Row) {
    row.pricing == Free && row.status == Qualified
  }

  // ---------------------------------------------------------------- the service

  class Publisher {
    var status: Status
    var pricing: Pricing
    var category: Option<string>
    var country: Option<string>
    var language: Option<string>
    var submissionUrl: Option<string>
    var quality: Option<real>
    var relevance: Option<real>
    var spam: Option<real>
    var authority: Option<real>
    var organicTraffic: Option<int>
    var stored: Option<Stored>

    constructor (row: Row)
      ensures AsRow() == row
    {
      status, pricing, category, country, language := row.status, row.pricing, row.category, row.country, row.language;
      submissionUrl, quality, relevance, spam := row.submissionUrl, row.quality, row.relevance, row.spam;
      authority, organicTraffic, stored := row.authority, row.organicTraffic, row.stored;
    }

    function AsRow(): Row
      reads this
    {
      Row(status, pricing, category, country, language, submissionUrl, quality, relevance, spam, authority, organicTraffic, stored)
    }
  }

  class QualificationService {
    const weights: Weights

    constructor (weights: Weights)
      ensures this.weights == weights
    {
      this.weights := weights;
    }

    method NormalizeKeywords(raw: seq<string>) returns (keywords: seq<string>)
      ensures keywords == Kept(raw)
    {
      keywords := [];
      for i := 0 to |raw|
        invariant keywords == Kept(raw[..i])
      {
        assert raw[..i + 1][..i] == raw[..i];
        var word := T.Strip(raw[i], T.SPACES);
        if word != "" {
          keywords := keywords + [T.Lower(word)];
        }
      }
      assert raw[..|raw|] == raw;
    }

    method CountHits(keywords: seq<string>, text: string) returns (hits: nat)
      ensures hits == Hits(keywords, text)
    {
      hits := 0;
      for i := 0 to |keywords|
        invariant hits == Hits(keywords[..i], text)
      {
        assert keywords[..i + 1][..i] == keywords[..i];
        if T.Contains(text, keywords[i]) {
          hits := hits + 1;
        }
      }
      assert keywords[..|keywords|] == keywords;
    }

    method BuildSignals(p: Publisher, live: Option<Live>, ask: Ask) returns (s: Signals)
      ensures s == Build(p.AsRow(), live, ask)
    {
      var known := if p.stored.Some? then p.stored.value.signals else NO_EVIDENCE;
      var reachable, tls, path, indexable := known.reachable, known.tlsValid, known.hasSubmissionPath, known.indexable;
      var spamSignals, links, httpStatus := known.spamSignals, known.outboundLinks, known.httpStatus;
      var text, paid := "", known.isPaidOnly;
      var authority, traffic := known.authority, known.organicTraffic;
      if live.Some? {
        var snapshot := live.value.snapshot;
        reachable, tls, path, indexable := snapshot.reachable, snapshot.tlsValid, snapshot.submissionPath.Some?, snapshot.indexable;
        spamSignals, links, httpStatus := snapshot.spamSignals, snapshot.outboundLinks, snapshot.statusCode;
        text, paid := snapshot.text, snapshot.paidListing;
        authority, traffic := live.value.metrics.authority, live.value.metrics.organicTraffic;
      }
      var keywords := NormalizeKeywords(ask.keywords);
      var hits := CountHits(keywords, text);
      var free;
      if paid {
        free := false;
      } else if live.Some? && live.value.snapshot.freeListing {
        free := true;
      } else {
        free := p.pricing == Free;
      }
      if live.Some? && live.value.metrics.spam.Some? && live.value.metrics.spam.value >= 50.0 {
        spamSignals := spamSignals + [VENDOR_SPAM];
      }
      hide Kept, Hits, CategoryMatches, CountryMatches, LanguageMatches;
      s := Signals(
        reachable, httpStatus, tls, path, free, paid, indexable, hits, |keywords|,
        CategoryMatches(p.AsRow(), text), CountryMatches(p.country, ask.country), LanguageMatches(p.language, ask.language),
        authority, traffic, spamSignals, links);
    }

    /** The scores and the evidence behind them. */
    method Record(p: Publisher, s: Signals, r: Scores)
      modifies p
      ensures p.AsRow() == old(p.AsRow()).(
        quality := Some(r.quality), relevance := Some(r.relevance), spam := Some(r.spam), authority := Some(r.authority),
        organicTraffic := if s.organicTraffic.Some? then s.organicTraffic else old(p.organicTraffic),
        stored := Some(Stored(s, r.opportunity, r.rejections)))
    {
      p.quality := Some(r.quality);
      p.relevance := Some(r.relevance);
      p.spam := Some(r.spam);
      p.authority := Some(r.authority);
      if s.organicTraffic.Some? {
        p.organicTraffic := s.organicTraffic;
      }
      p.stored := Some(Stored(s, r.opportunity, r.rejections));
    }

    method Apply(p: Publisher, s: Signals, r: Scores, live: Option<Live>)
      modifies p
      ensures p.AsRow() == Written(old(p.AsRow()), s, r, live, weights)
    {
      Record(p, s, r);
      if s.isPaidOnly {
        p.pricing := Paid;
      } else if s.isFree && s.hasSubmissionPath {
        p.pricing := Free;
      }
      if live.Some? && live.value.snapshot.submissionPath.Some? && live.value.snapshot.submissionPath.value != "" {
        p.submissionUrl := live.value.snapshot.submissionPath;
      }
      if r.rejections != [] || !Meets(r, weights) {
        p.status := Rejected;
      } else {
        p.status := Qualified;
      }
    }

    /** A failure leaves the row marked QUALIFYING, for the request's rollback to undo. */
    method QualifyPublisher(p: Publisher, live: Option<Live>, ask: Ask) returns (failure: Option<Error>)
      modifies p
      ensures
        match Qualify(old(p.AsRow()), weights, live, ask)
        case Ok(row) => failure == None && p.AsRow() == row
        case Err(e) => failure == Some(e) && p.AsRow() == old(p.AsRow()).(status := Qualifying)
    {
      ghost var before := p.AsRow();
      p.status := Qualifying;
      var s := BuildSignals(p, live, ask);
      StatusIsNotEvidence(before, live, ask);
      hide Build, Score;
      var r := ScorePublisher(s, weights);
      if r.Err? {
        return Some(r.error);
      }
      Apply(p, s, r.value, live);
      return None;
    }
  }

  lemma StatusIsNotEvidence(row: Row, live: Option<Live>, ask: Ask)
    ensures Build(row.(status := Qualifying), live, ask) == Build(row, live, ask)
  {
  }

  // ---------------------------------------------------------------- what a qualification decides

  /** A publisher is QUALIFIED exactly when its signals pass; then it is FREE exactly when they said so. */
  lemma QualifiedMeansPriced(row: Row, w: Weights, live: Option<Live>, ask: Ask)
    requires Qualify(row, w, live, ask).Ok?
    ensures
      var row', s := Qualify(row, w, live, ask).value, Build(row, live, ask);
      && row'.stored.Some? && row'.stored.value.signals == s
      && (row'.status == Qualified <==> Passes(s, w))
      && (row'.status == Qualified ==> (row'.pricing == Free <==> s.isFree))
      && (IsSubmittable(row') <==> Passes(s, w) && s.isFree)
  {
    hide Kept, Hits, CategoryMatches, CountryMatches, LanguageMatches, Combined, Clamp, QualityPoints, RelevancePoints, SpamPoints;
  }

  /** Pricing moves only on evidence: to PAID when payment was seen, to FREE when a free path was. */
  lemma PricingMovesOnEvidence(row: Row, w: Weights, live: Option<Live>, ask: Ask)
    requires Qualify(row, w, live, ask).Ok?
    ensures
      var row', s := Qualify(row, w, live, ask).value, Build(row, live, ask);
      row'.pricing != row.pricing ==>
        (row'.pricing == Paid && s.isPaidOnly)
        || (row'.pricing == Free && live.Some? && live.value.snapshot.freeListing && live.value.snapshot.submissionPath.Some? && !s.isPaidOnly)
  {
    hide Kept, Hits, CategoryMatches, CountryMatches, LanguageMatches, Combined, Clamp, QualityPoints, RelevancePoints, SpamPoints;
  }

  /** A live crawl that saw no payment, a free listing, and a path to submit. */
  predicate ShowsFree(live: Option<Live>) {
    live.Some? && !live.value.snapshot.paidListing && live.value.snapshot.freeListing && live.value.snapshot.submissionPath.Some?
  }

  /** Pricing is loosened to FREE, from whatever else it was, exactly when a live crawl shows a free path. */
  lemma PricingLoosensExactlyWhen(row: Row, w: Weights, live: Option<Live>, ask: Ask)
    requires Qualify(row, w, live, ask).Ok?
    ensures
      var row' := Qualify(row, w, live, ask).value;
      row.pricing != Free && row'.pricing == Free <==> row.pricing != Free && ShowsFree(live)
  {
    hide Kept, Hits, CategoryMatches, CountryMatches, LanguageMatches, Combined, Clamp, QualityPoints, RelevancePoints, SpamPoints;
  }

  /** Pricing is tightened to PAID exactly when payment was seen, now or by the evidence that is stored. */
  lemma PricingTightensExactlyWhen(row: Row, w: Weights, live: Option<Live>, ask: Ask)
    requires Qualify(row, w, live, ask).Ok? && row.pricing != Paid
    ensures
      Qualify(row, w, live, ask).value.pricing == Paid
      <==> if live.Some? then live.value.snapshot.paidListing else Known(row).isPaidOnly
  {
    hide Kept, Hits, CategoryMatches, CountryMatches, LanguageMatches, Combined, Clamp, QualityPoints, RelevancePoints, SpamPoints;
  }

  const PRICED := Row(Rejected, Paid, None, None, None, None, None, None, None, None, None, None)

  const SEEN_FREE := Live(Snapshot(true, Some(200), true, "", Some("/submit"), None, true, [], true, false), Metrics(None, None, None))

  /** So a row recorded as PAID can become FREE, against the comment that pricing is only tightened. */
  lemma PaidCanBecomeFree(w: Weights, ask: Ask)
    requires Mass(w) > 0.0
    ensures Qualify(PRICED, w, Some(SEEN_FREE), ask).Ok? && Qualify(PRICED, w, Some(SEEN_FREE), ask).value.pricing == Free
  {
    hide Kept, Hits, CategoryMatches, CountryMatches, LanguageMatches, Combined, Clamp, QualityPoints, RelevancePoints, SpamPoints, Rejections;
    PricingLoosensExactlyWhen(PRICED, w, Some(SEEN_FREE), ask);
  }

  /** Qualifying again on the same evidence changes nothing: live or from the stored signals, once is enough. */
  lemma QualifyingTwiceIsOnce(row: Row, w: Weights, live: Option<Live>, ask: Ask)
    requires Qualify(row, w, live, ask).Ok?
    ensures Qualify(Qualify(row, w, live, ask).value, w, live, ask) == Qualify(row, w, live, ask)
  {
    hide Score, Meets;
    var row' := Qualify(row, w, live, ask).value;
    SameSignals(row, row', live, ask);
    hide Build;
  }

  lemma SameSignals(row: Row, row': Row, live: Option<Live>, ask: Ask)
    requires row'.stored.Some? && row'.stored.value.signals == Build(row, live, ask)
    requires row'.pricing == PricingAfter(row.pricing, Build(row, live, ask))
    requires row'.category == row.category && row'.country == row.country && row'.language == row.language
    ensures Build(row', live, ask) == Build(row, live, ask)
  {
    hide Kept, Hits, CountryMatches, LanguageMatches;
  }

  // ---------------------------------------------------------------- re-scoring from what was stored

  /** The evidence about the site itself, apart from what the campaign asked. */
  function SiteEvidence(s: Signals): Signals {
    s.(keywordHits := 0, keywordsConsidered := 0, categoryMatch := false, countryMatch := false, languageMatch := false)
  }

  /** What a re-score can check beforehand: a path was found, or free was not claimed, or the row says FREE. */
  predicate Reproducible(row: Row) {
    Known(row).hasSubmissionPath || !Known(row).isFree || row.pricing == Free
  }

  /** A row some qualification wrote. */
  ghost predicate Scored(row: Row, w: Weights) {
    exists before, live, ask :: Qualify(before, w, live, ask) == Ok(row)
  }

  /** Everything but the free claim is always reproduced; the free claim exactly when the row is reproducible. */
  lemma RescoreReproducesEvidenceExactlyWhen(row: Row, w: Weights, ask: Ask)
    requires Scored(row, w)
    ensures SiteEvidence(Build(row, None, ask)).(isFree := Known(row).isFree) == SiteEvidence(Known(row))
    ensures SiteEvidence(Build(row, None, ask)) == SiteEvidence(Known(row)) <==> Reproducible(row)
  {
    var before, live, was :| Qualify(before, w, live, was) == Ok(row);
    FreeClaim(before, row, w, live, was);
    hide Qualify, Hits, Kept, CategoryMatches, CountryMatches, LanguageMatches;
  }

  lemma FreeClaim(before: Row, row: Row, w: Weights, live: Option<Live>, ask: Ask)
    requires Qualify(before, w, live, ask) == Ok(row)
    ensures row.stored.Some?
    ensures var k := Known(row); k.isPaidOnly ==> !k.isFree && row.pricing == Paid
    ensures var k := Known(row); row.pricing == Free && !k.isPaidOnly ==> k.isFree
  {
    hide Score, Meets, Hits, Kept, CategoryMatches, CountryMatches, LanguageMatches;
  }

  /**
   * Re-scoring with the same weights always reproduces spam, authority and the hard rejections, reproduces
   * quality when the row is reproducible, and otherwise loses exactly the free-listing points, on a row
   * that is rejected either way.
   */
  lemma RescoreReproducesScores(row: Row, w: Weights, ask: Ask)
    requires Scored(row, w) && Qualify(row, w, None, ask).Ok?
    ensures
      var row' := Qualify(row, w, None, ask).value;
      && row'.spam == row.spam && row'.authority == row.authority
      && row'.stored.value.rejections == row.stored.value.rejections
      && (Reproducible(row) ==> row'.quality == row.quality)
      && (!Reproducible(row) ==>
            row'.quality == Some(Clamp(QualityPoints(Known(row), w) - w.freeListing))
            && row.status == Rejected && row'.status == Rejected)
  {
    hide Qualify, Build, Score, Meets, Clamp, QualityPoints, SiteEvidence, Reproducible;
    var before, live, was :| Qualify(before, w, live, was) == Ok(row);
    RescoreKeeps(before, row, w, live, was, ask);
    if !Reproducible(row) {
      RescoreLoses(before, row, w, live, was, ask);
    }
  }

  lemma RescoreKeeps(before: Row, row: Row, w: Weights, live: Option<Live>, was: Ask, ask: Ask)
    requires Qualify(before, w, live, was) == Ok(row) && Qualify(row, w, None, ask).Ok?
    ensures
      var row' := Qualify(row, w, None, ask).value;
      row.stored.Some? && row'.stored.Some?
      && row'.spam == row.spam && row'.authority == row.authority
      && row'.stored.value.rejections == row.stored.value.rejections
      && (Reproducible(row) ==> row'.quality == row.quality)
  {
    hide Qualify, Build, Score, Meets, Clamp, QualityPoints, SiteEvidence, Reproducible;
    var row' := Qualify(row, w, None, ask).value;
    ScoresOf(before, row, w, live, was);
    ScoresOf(row, row', w, None, ask);
    RescoreReproducesEvidenceExactlyWhen(row, w, ask);
    ComponentsOfRescore(Known(row'), Known(row), w);
    if Reproducible(row) {
      FreeClaimKept(row, ask);
    }
  }

  lemma RescoreLoses(before: Row, row: Row, w: Weights, live: Option<Live>, was: Ask, ask: Ask)
    requires Qualify(before, w, live, was) == Ok(row) && Qualify(row, w, None, ask).Ok? && !Reproducible(row)
    ensures
      var row' := Qualify(row, w, None, ask).value;
      row'.quality == Some(Clamp(QualityPoints(Known(row), w) - w.freeListing))
      && row.status == Rejected && row'.status == Rejected
  {
    hide Qualify, Build, Score, Meets, Clamp, QualityPoints, SiteEvidence, Reproducible;
    var row' := Qualify(row, w, None, ask).value;
    ScoresOf(before, row, w, live, was);
    ScoresOf(row, row', w, None, ask);
    RescoreReproducesEvidenceExactlyWhen(row, w, ask);
    ComponentsOfRescore(Known(row'), Known(row), w);
    LostClaim(before, row, w, live, was, ask);
    NoPathNoPass(Known(row'), w);
    NoPathNoPass(Known(row), w);
  }

  lemma FreeClaimKept(row: Row, ask: Ask)
    requires SiteEvidence(Build(row, None, ask)) == SiteEvidence(Known(row))
    ensures Build(row, None, ask).isFree == Known(row).isFree
  {
    hide Build;
  }

  lemma LostClaim(before: Row, row: Row, w: Weights, live: Option<Live>, was: Ask, ask: Ask)
    requires Qualify(before, w, live, was) == Ok(row) && !Reproducible(row)
    ensures Known(row).isFree && !Build(row, None, ask).isFree
    ensures !Known(row).hasSubmissionPath && !Build(row, None, ask).hasSubmissionPath
  {
    hide Qualify, Kept, Hits, CategoryMatches, CountryMatches, LanguageMatches;
  }

  lemma ComponentsOfRescore(s: Signals, t: Signals, w: Weights)
    requires SiteEvidence(s).(isFree := t.isFree) == SiteEvidence(t) && Score(s, w).Ok? && Score(t, w).Ok?
    ensures
      var r, q := Score(s, w).value, Score(t, w).value;
      && r.spam == q.spam && r.authority == q.authority && r.rejections == q.rejections
      && (s.isFree == t.isFree ==> r.quality == q.quality)
      && (t.isFree && !s.isFree ==> r.quality == Clamp(QualityPoints(t, w) - w.freeListing))
  {
    SiteScores(s, t, w);
    hide Clamp, Combined, RelevancePoints, QualityPoints, SpamPoints, AuthorityPoints, Rejections, SiteEvidence;
  }

  lemma NoPathNoPass(s: Signals, w: Weights)
    requires Score(s, w).Ok? && !s.hasSubmissionPath
    ensures !Meets(Score(s, w).value, w)
  {
    hide Combined, Clamp, QualityPoints, RelevancePoints, SpamPoints;
  }

  lemma ScoresOf(before: Row, row: Row, w: Weights, live: Option<Live>, ask: Ask)
    requires Qualify(before, w, live, ask) == Ok(row)
    ensures Known(row) == Build(before, live, ask)
    ensures Score(Known(row), w).Ok?
    ensures
      var r := Score(Known(row), w).value;
      row.quality == Some(r.quality) && row.spam == Some(r.spam) && row.authority == Some(r.authority)
      && row.stored.Some? && row.stored.value.rejections == r.rejections && (row.status == Qualified <==> Meets(r, w))
      && row.status in {Qualified, Rejected}
  {
    hide Build, Score, Meets;
  }

  lemma SiteScores(s: Signals, t: Signals, w: Weights)
    requires SiteEvidence(s).(isFree := t.isFree) == SiteEvidence(t)
    ensures SpamPoints(s, w) == SpamPoints(t, w) && AuthorityPoints(s, w) == AuthorityPoints(t, w) && Rejections(s) == Rejections(t)
    ensures s.isFree == t.isFree ==> QualityPoints(s, w) == QualityPoints(t, w)
    ensures t.isFree && !s.isFree ==> QualityPoints(s, w) == QualityPoints(t, w) - w.freeListing
  {
  }

  /** Such rows exist under every usable weighting: free was seen, but no path to submit. */
  lemma FreeClaimCanBeLost(w: Weights) returns (row: Row)
    requires Mass(w) > 0.0
    ensures Scored(row, w) && !Reproducible(row)
  {
    var before := Row(Discovered, UnknownPricing, None, None, None, None, None, None, None, None, None, None);
    var live := Some(Live(Snapshot(true, Some(200), true, "", None, None, true, [], true, false), Metrics(None, None, None)));
    var ask := Ask([], None, None);
    hide Clamp, Combined, QualityPoints, RelevancePoints, SpamPoints, Rejections;
    row := Qualify(before, w, live, ask).value;
    assert Qualify(before, w, live, ask) == Ok(row);
  }
}
