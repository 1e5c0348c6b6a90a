/**
 * Publisher scoring: evidence in, four component scores and a weighted opportunity score out.
 *
 * Scores are real numbers here, rounded half to even at two decimals.
 */
module Scoring {
  import opened Prelude

  datatype Weights = Weights(
    quality: real, relevance: real, authority: real, spam: real,
    reachable: real, tls: real, submissionPath: real, freeListing: real, indexable: real,
    keyword: real, maxKeyword: real, category: real, country: real, language: real,
    spamSignal: real, outboundLinks: real,
    minQuality: real, maxSpam: real, minOpportunity: real,
    defaultAuthority: real)

  const DEFAULT_WEIGHTS := Weights(
    0.35, 0.30, 0.20, 0.15,
    30.0, 10.0, 25.0, 20.0, 15.0,
    12.0, 60.0, 20.0, 12.0, 8.0,
    22.0, 18.0,
    45.0, 50.0, 40.0,
    50.0)

  datatype Signals = Signals(
    reachable: bool, httpStatus: Option<int>, tlsValid: bool, hasSubmissionPath: bool,
    isFree: bool, isPaidOnly: bool, indexable: bool,
    keywordHits: nat, keywordsConsidered: nat,
    categoryMatch: bool, countryMatch: bool, languageMatch: bool,
    authority: Option<real>, organicTraffic: Option<int>,
    spamSignals: seq<string>, outboundLinks: Option<int>)

  datatype Reason = Unreachable | PaidOnly | NoSubmissionPath | LinkSchemeDetected

  datatype Scores = Scores(quality: real, relevance: real, spam: real, authority: real, opportunity: real, rejections: seq<Reason>)

  datatype Error = NoPositiveWeight

  const LINK_SCHEMES := {"paid_links_offered", "link_scheme", "pbn_footprint"}

  // ---------------------------------------------------------------- rounding

  function RoundHalfEven(x: real): int {
    var below := x.Floor;
    var rest := x - below as real;
    if rest < 0.5 || (rest == 0.5 && below % 2 == 0) then below else below + 1
  }

  function Round2(x: real): real {
    RoundHalfEven(x * 100.0) as real / 100.0
  }

  function Clamp(x: real): real {
    Max(0.0, Min(100.0, Round2(x)))
  }

  /** A whole number of hundredths. */
  predicate IsCents(x: real) {
    (x * 100.0).Floor as real == x * 100.0
  }

  predicate IsScore(x: real) {
    0.0 <= x <= 100.0 && IsCents(x)
  }

  lemma HalfEvenLaws(x: real, y: real)
    ensures x <= y ==> RoundHalfEven(x) <= RoundHalfEven(y)
    ensures x - 0.5 <= RoundHalfEven(x) as real <= x + 0.5
    ensures x.Floor as real == x ==> RoundHalfEven(x) as real == x
  {
  }

  lemma Hundredths(n: int)
    ensures IsCents(n as real / 100.0)
  {
    assert n as real / 100.0 * 100.0 == n as real;
  }

  /** Rounding keeps order, moves nothing by more than half a hundredth, and leaves hundredths alone. */
  lemma RoundingLaws(x: real, y: real)
    ensures x <= y ==> Round2(x) <= Round2(y)
    ensures x - 0.005 <= Round2(x) <= x + 0.005
    ensures IsCents(Round2(x))
    ensures IsCents(x) ==> Round2(x) == x
  {
    HalfEvenLaws(x * 100.0, y * 100.0);
    Hundredths(RoundHalfEven(x * 100.0));
    hide RoundHalfEven;
  }

  lemma ClampLaws(x: real, y: real)
    ensures IsScore(Clamp(x))
    ensures x <= y ==> Clamp(x) <= Clamp(y)
    ensures IsScore(x) ==> Clamp(x) == x
    ensures 0.0 <= x <= 100.0 ==> x - 0.005 <= Clamp(x) <= x + 0.005
  {
    RoundingLaws(x, y);
    assert IsCents(0.0) && IsCents(100.0);
    RoundingLaws(x, 100.0);
    RoundingLaws(0.0, x);
    hide Round2, IsCents;
  }

  // ---------------------------------------------------------------- products

  /** A product of two unknowns, named so that proofs can use its laws one at a time. */
  function Times(x: real, y: real): real {
    x * y
  }

  lemma Scaled(a: real, b: real, k: real)
    requires a <= b && k >= 0.0
    ensures Times(a, k) <= Times(b, k)
  {
  }

  lemma Nothing(x: real)
    ensures Times(0.0, x) == 0.0 && Times(x, 0.0) == 0.0 && Times(1.0, x) == x
  {
  }

  lemma Opposite(x: real, y: real)
    ensures Times(x, -y) == -Times(x, y)
  {
  }

  lemma ScaledBack(a: real, b: real, k: real)
    requires a <= b && k <= 0.0
    ensures Times(b, k) <= Times(a, k)
  {
    hide Times;
    Scaled(a, b, -k);
    Opposite(a, k);
    Opposite(b, k);
  }

  lemma Distribute(b: real, x: real, y: real, z: real)
    ensures Times(b, x) + Times(b, y) + Times(b, z) == Times(b, x + y + z)
  {
  }

  lemma TimesAdds(x: real, y: real, k: real)
    ensures Times(x + y, k) == Times(x, k) + Times(y, k)
  {
  }

  lemma TimesSwaps(x: real, k: real, y: real)
    ensures Times(x, Times(k, y)) == Times(k, Times(x, y))
  {
    assert x * (k * y) == k * (x * y);
  }

  lemma DividedBy(x: real, bound: real, mass: real)
    requires mass > 0.0
    ensures x <= Times(bound, mass) ==> x / mass <= bound
    ensures x >= Times(bound, mass) ==> x / mass >= bound
  {
  }

  lemma Quotient(x: real, y: real, mass: real)
    requires mass > 0.0 && x == Times(y, mass)
    ensures x / mass == y
  {
  }

  lemma Undivided(x: real, y: real)
    requires y > 0.0
    ensures Times(x / y, y) == x && (x > 0.0 ==> x / y > 0.0)
  {
  }

  lemma SameQuotient(x: real, mass: real, k: real)
    requires k > 0.0 && mass > 0.0
    ensures Times(k, mass) > 0.0 && Times(k, x) / Times(k, mass) == x / mass
  {
  }

  lemma TimesSign(k: real, x: real)
    requires k > 0.0
    ensures Times(k, x) > 0.0 <==> x > 0.0
  {
  }

  // ---------------------------------------------------------------- components

  function Points(earned: bool, points: real): real {
    if earned then points else 0.0
  }

  function QualityPoints(s: Signals, w: Weights): real {
    Points(s.reachable, w.reachable) + Points(s.tlsValid, w.tls) + Points(s.hasSubmissionPath, w.submissionPath)
    + Points(s.isFree, w.freeListing) + Points(s.indexable, w.indexable)
  }

  function KeywordPoints(hits: nat, w: Weights): real {
    Min(Times(hits as real, w.keyword), w.maxKeyword)
  }

  function RelevancePoints(s: Signals, w: Weights): real {
    KeywordPoints(s.keywordHits, w)
    + Points(s.categoryMatch, w.category) + Points(s.countryMatch, w.country) + Points(s.languageMatch, w.language)
  }

  predicate LinkFarm(s: Signals) {
    s.outboundLinks.Some? && s.outboundLinks.value > 300
  }

  function SignalPoints(n: nat, w: Weights): real {
    Times(n as real, w.spamSignal)
  }

  function SpamPoints(s: Signals, w: Weights): real {
    SignalPoints(|s.spamSignals|, w) + Points(LinkFarm(s), w.outboundLinks)
  }

  function AuthorityPoints(s: Signals, w: Weights): real {
    if s.authority.Some? then s.authority.value else w.defaultAuthority
  }

  method ScoreQuality(s: Signals, w: Weights) returns (score: real)
    ensures score == Clamp(QualityPoints(s, w))
  {
    var total := 0.0;
    if s.reachable {
      total := total + w.reachable;
    }
    if s.tlsValid {
      total := total + w.tls;
    }
    if s.hasSubmissionPath {
      total := total + w.submissionPath;
    }
    if s.isFree {
      total := total + w.freeListing;
    }
    if s.indexable {
      total := total + w.indexable;
    }
    assert total == QualityPoints(s, w);
    return Clamp(total);
  }

  method ScoreRelevance(s: Signals, w: Weights) returns (score: real)
    ensures score == Clamp(RelevancePoints(s, w))
  {
    var total := 0.0;
    var keywordPoints := Min(s.keywordHits as real * w.keyword, w.maxKeyword);
    total := total + keywordPoints;
    if s.categoryMatch {
      total := total + w.category;
    }
    if s.countryMatch {
      total := total + w.country;
    }
    if s.languageMatch {
      total := total + w.language;
    }
    assert keywordPoints == KeywordPoints(s.keywordHits, w);
    hide KeywordPoints;
    assert total == RelevancePoints(s, w);
    return Clamp(total);
  }

  method ScoreSpam(s: Signals, w: Weights) returns (score: real)
    ensures score == Clamp(SpamPoints(s, w))
  {
    var total := 0.0;
    SignalsAdd(0, w);
    hide SignalPoints;
    for i := 0 to |s.spamSignals|
      invariant total == SignalPoints(i, w)
    {
      SignalsAdd(i, w);
      total := total + w.spamSignal;
    }
    if s.outboundLinks.Some? && s.outboundLinks.value > 300 {
      total := total + w.outboundLinks;
    }
    assert total == SpamPoints(s, w);
    return Clamp(total);
  }

  method ScoreAuthority(s: Signals, w: Weights) returns (score: real)
    ensures score == Clamp(AuthorityPoints(s, w))
  {
    if s.authority.None? {
      return Clamp(w.defaultAuthority);
    }
    return Clamp(s.authority.value);
  }

  // ---------------------------------------------------------------- hard rejections

  predicate HasLinkScheme(s: Signals) {
    exists i :: 0 <= i < |s.spamSignals| && s.spamSignals[i] in LINK_SCHEMES
  }

  predicate HardRejected(s: Signals) {
    !s.reachable || s.isPaidOnly || !s.hasSubmissionPath || HasLinkScheme(s)
  }

  function When(finding: bool, r: Reason): seq<Reason> {
    if finding then [r] else []
  }

  function Rejections(s: Signals): seq<Reason> {
    When(!s.reachable, Unreachable) + When(s.isPaidOnly, PaidOnly)
    + When(!s.hasSubmissionPath, NoSubmissionPath) + When(HasLinkScheme(s), LinkSchemeDetected)
  }

  method FindHardRejections(s: Signals) returns (found: seq<Reason>)
    ensures found == Rejections(s)
    ensures found != [] <==> HardRejected(s)
  {
    found := [];
    if !s.reachable {
      found := found + [Unreachable];
    }
    if s.isPaidOnly {
      found := found + [PaidOnly];
    }
    if !s.hasSubmissionPath {
      found := found + [NoSubmissionPath];
    }
    var scheme := false;
    for i := 0 to |s.spamSignals|
      invariant scheme <==> exists j :: 0 <= j < i && s.spamSignals[j] in LINK_SCHEMES
    {
      if s.spamSignals[i] in LINK_SCHEMES {
        scheme := true;
      }
    }
    assert scheme <==> HasLinkScheme(s);
    if scheme {
      found := found + [LinkSchemeDetected];
    }
  }

  // ---------------------------------------------------------------- the whole result

  function Mass(w: Weights): real {
    w.quality + w.relevance + w.authority
  }

  function WeightedSum(quality: real, relevance: real, authority: real, w: Weights): real {
    Times(quality, w.quality) + Times(relevance, w.relevance) + Times(authority, w.authority)
  }

  function Average(quality: real, relevance: real, authority: real, w: Weights): real
    requires Mass(w) > 0.0
  {
    WeightedSum(quality, relevance, authority, w) / Mass(w)
  }

  function Penalty(spam: real, w: Weights): real {
    Times(spam, w.spam)
  }

  /** The positive components averaged by their own mass, less the spam penalty. */
  function Combined(quality: real, relevance: real, spam: real, authority: real, w: Weights): real
    requires Mass(w) > 0.0
  {
    Clamp(Average(quality, relevance, authority, w) - Penalty(spam, w))
  }

  function Score(s: Signals, w: Weights): Result<Scores, Error> {
    if Mass(w) <= 0.0 then Err(NoPositiveWeight)
    else
      var q, r, p, a := Clamp(QualityPoints(s, w)), Clamp(RelevancePoints(s, w)), Clamp(SpamPoints(s, w)), Clamp(AuthorityPoints(s, w));
      Ok(Scores(q, r, p, a, Combined(q, r, p, a, w), Rejections(s)))
  }

  predicate Meets(r: Scores, w: Weights) {
    r.rejections == [] && r.quality >= w.minQuality && r.spam <= w.maxSpam && r.opportunity >= w.minOpportunity
  }

  predicate Passes(s: Signals, w: Weights) {
    Score(s, w).Ok? && Meets(Score(s, w).value, w)
  }

  lemma AverageIs(q: real, r: real, a: real, w: Weights, weighted: real)
    requires Mass(w) > 0.0
    requires weighted == (q * w.quality + r * w.relevance + a * w.authority) / (w.quality + w.relevance + w.authority)
    ensures Average(q, r, a, w) == weighted
  {
  }

  method ScorePublisher(s: Signals, w: Weights) returns (result: Result<Scores, Error>)
    ensures result == Score(s, w)
  {
    var quality := ScoreQuality(s, w);
    var relevance := ScoreRelevance(s, w);
    var spam := ScoreSpam(s, w);
    var authority := ScoreAuthority(s, w);
    var positiveMass := w.quality + w.relevance + w.authority;
    if positiveMass <= 0.0 {
      return Err(NoPositiveWeight);
    }
    var weighted := (quality * w.quality + relevance * w.relevance + authority * w.authority) / positiveMass;
    var penalty := spam * w.spam;
    assert penalty == Penalty(spam, w);
    hide Penalty;
    var opportunity := Clamp(weighted - penalty);
    AverageIs(quality, relevance, authority, w, weighted);
    hide Average;
    hide Clamp, QualityPoints, RelevancePoints, SpamPoints, AuthorityPoints, Combined, Rejections;
    var rejections := FindHardRejections(s);
    return Ok(Scores(quality, relevance, spam, authority, opportunity, rejections));
  }

  // ---------------------------------------------------------------- bounds

  /** No weighting at all takes a score out of 0-100 or off the hundredths. */
  lemma ScoresAreInRange(s: Signals, w: Weights)
    requires Score(s, w).Ok?
    ensures
      var r := Score(s, w).value;
      IsScore(r.quality) && IsScore(r.relevance) && IsScore(r.spam) && IsScore(r.authority) && IsScore(r.opportunity)
  {
    hide Clamp, QualityPoints, RelevancePoints, SpamPoints, AuthorityPoints, Average, IsScore;
    forall x: real
      ensures IsScore(Clamp(x))
    {
      ClampLaws(x, x);
    }
  }

  predicate NonNegativeMix(w: Weights) {
    w.quality >= 0.0 && w.relevance >= 0.0 && w.authority >= 0.0 && w.spam >= 0.0
  }

  predicate NonNegativePoints(w: Weights) {
    && w.reachable >= 0.0 && w.tls >= 0.0 && w.submissionPath >= 0.0 && w.freeListing >= 0.0 && w.indexable >= 0.0
    && w.keyword >= 0.0 && w.maxKeyword >= 0.0 && w.category >= 0.0 && w.country >= 0.0 && w.language >= 0.0
    && w.spamSignal >= 0.0 && w.outboundLinks >= 0.0
  }

  lemma EvenSum(b: real, w: Weights)
    ensures WeightedSum(b, b, b, w) == Times(b, Mass(w))
  {
    hide Times;
    Distribute(b, w.quality, w.relevance, w.authority);
  }

  lemma SumGrows(q: real, r: real, a: real, q': real, r': real, a': real, w: Weights)
    requires NonNegativeMix(w) && q <= q' && r <= r' && a <= a'
    ensures WeightedSum(q, r, a, w) <= WeightedSum(q', r', a', w)
  {
    hide Times;
    Scaled(q, q', w.quality);
    Scaled(r, r', w.relevance);
    Scaled(a, a', w.authority);
  }

  /** A weighted average lies between any bounds its parts share. */
  lemma AverageBounds(q: real, r: real, a: real, low: real, high: real, w: Weights)
    requires Mass(w) > 0.0 && NonNegativeMix(w)
    requires low <= q <= high && low <= r <= high && low <= a <= high
    ensures low <= Average(q, r, a, w) <= high
  {
    SumGrows(low, low, low, q, r, a, w);
    SumGrows(q, r, a, high, high, high, w);
    EvenSum(low, w);
    EvenSum(high, w);
    hide WeightedSum, Mass, Times;
    DividedBy(WeightedSum(q, r, a, w), low, Mass(w));
    DividedBy(WeightedSum(q, r, a, w), high, Mass(w));
  }

  function Largest(a: real, b: real, c: real): real {
    Max(a, Max(b, c))
  }

  function Smallest(a: real, b: real, c: real): real {
    Min(a, Min(b, c))
  }

  lemma PenaltySign(spam: real, w: Weights)
    requires IsScore(spam) && w.spam >= 0.0
    ensures Penalty(spam, w) >= 0.0
    ensures spam == 0.0 || w.spam == 0.0 ==> Penalty(spam, w) == 0.0
  {
    hide Times;
    Scaled(0.0, spam, w.spam);
    Nothing(w.spam);
    Nothing(spam);
  }

  lemma CombinedIsBetween(q: real, r: real, p: real, a: real, w: Weights)
    requires Mass(w) > 0.0 && NonNegativeMix(w) && IsScore(q) && IsScore(r) && IsScore(p) && IsScore(a)
    ensures Combined(q, r, p, a, w) <= Largest(q, r, a)
    ensures p == 0.0 || w.spam == 0.0 ==> Smallest(q, r, a) <= Combined(q, r, p, a, w)
  {
    var low, high := Smallest(q, r, a), Largest(q, r, a);
    assert IsScore(low) && IsScore(high);
    PenaltySign(p, w);
    AverageBounds(q, r, a, low, high, w);
    hide Clamp, Average, IsScore, Mass, Smallest, Largest, Penalty, NonNegativeMix;
    LessPenalty(Average(q, r, a, w), Penalty(p, w), low, high);
  }

  lemma LessPenalty(average: real, penalty: real, low: real, high: real)
    requires low <= average <= high && IsScore(low) && IsScore(high) && penalty >= 0.0
    ensures Clamp(average - penalty) <= high
    ensures penalty == 0.0 ==> low <= Clamp(average - penalty)
  {
    ClampLaws(average - penalty, high);
    ClampLaws(high, high);
    ClampLaws(low, average);
    hide Clamp, IsScore;
  }

  /**
   * With non-negative weights the opportunity score is never above the best positive component and, with no
   * spam (or no spam penalty), never below the worst one; the rounding does not break either bound.
   */
  lemma OpportunityIsBetween(s: Signals, w: Weights)
    requires Score(s, w).Ok? && NonNegativeMix(w)
    ensures var r := Score(s, w).value; r.opportunity <= Largest(r.quality, r.relevance, r.authority)
    ensures
      var r := Score(s, w).value;
      r.spam == 0.0 || w.spam == 0.0 ==> r.opportunity >= Smallest(r.quality, r.relevance, r.authority)
  {
    var r := Score(s, w).value;
    ScoresAreInRange(s, w);
    assert r.opportunity == Combined(r.quality, r.relevance, r.spam, r.authority, w);
    CombinedIsBetween(r.quality, r.relevance, r.spam, r.authority, w);
    hide Score, Combined, Largest, Smallest, IsScore;
  }

  // ---------------------------------------------------------------- worse evidence never helps

  /** `t` shows nothing better than `s`: no more merits, no fewer faults. */
  predicate NoBetter(t: Signals, s: Signals) {
    && (t.reachable ==> s.reachable) && (t.tlsValid ==> s.tlsValid)
    && (t.hasSubmissionPath ==> s.hasSubmissionPath) && (t.isFree ==> s.isFree) && (t.indexable ==> s.indexable)
    && (s.isPaidOnly ==> t.isPaidOnly)
    && t.keywordHits <= s.keywordHits
    && (t.categoryMatch ==> s.categoryMatch) && (t.countryMatch ==> s.countryMatch) && (t.languageMatch ==> s.languageMatch)
    && (t.authority.Some? <==> s.authority.Some?) && (t.authority.Some? ==> t.authority.value <= s.authority.value)
    && |s.spamSignals| <= |t.spamSignals| && (forall x :: x in s.spamSignals ==> x in t.spamSignals)
    && (LinkFarm(s) ==> LinkFarm(t))
  }

  lemma PointsGrow(t: Signals, s: Signals, w: Weights)
    requires NoBetter(t, s) && NonNegativePoints(w)
    ensures QualityPoints(t, w) <= QualityPoints(s, w) && AuthorityPoints(t, w) <= AuthorityPoints(s, w)
  {
  }

  lemma KeywordPointsGrow(fewer: nat, more: nat, w: Weights)
    requires fewer <= more && w.keyword >= 0.0
    ensures KeywordPoints(fewer, w) <= KeywordPoints(more, w)
  {
    hide Times;
    Scaled(fewer as real, more as real, w.keyword);
  }

  lemma RelevanceGrows(t: Signals, s: Signals, w: Weights)
    requires NoBetter(t, s) && NonNegativePoints(w)
    ensures RelevancePoints(t, w) <= RelevancePoints(s, w)
  {
    KeywordPointsGrow(t.keywordHits, s.keywordHits, w);
    hide KeywordPoints;
  }

  lemma SpamGrows(t: Signals, s: Signals, w: Weights)
    requires NoBetter(t, s) && NonNegativePoints(w)
    ensures SpamPoints(s, w) <= SpamPoints(t, w)
  {
    hide Times;
    Scaled(|s.spamSignals| as real, |t.spamSignals| as real, w.spamSignal);
    assert SignalPoints(|s.spamSignals|, w) <= SignalPoints(|t.spamSignals|, w);
    hide SignalPoints;
  }

  lemma CombinedGrows(q: real, r: real, p: real, a: real, q': real, r': real, p': real, a': real, w: Weights)
    requires Mass(w) > 0.0 && NonNegativeMix(w) && q <= q' && r <= r' && a <= a' && p' <= p
    ensures Combined(q, r, p, a, w) <= Combined(q', r', p', a', w)
  {
    PenaltyGrows(p', p, w);
    SumGrows(q, r, a, q', r', a', w);
    hide Times, Penalty, WeightedSum, Mass, Clamp;
    QuotientGrows(WeightedSum(q, r, a, w), WeightedSum(q', r', a', w), Mass(w));
    ClampLaws(Average(q, r, a, w) - Penalty(p, w), Average(q', r', a', w) - Penalty(p', w));
  }

  lemma QuotientGrows(x: real, y: real, mass: real)
    requires mass > 0.0 && x <= y
    ensures x / mass <= y / mass
  {
  }

  /** With non-negative weights and points, every score moves with the evidence. */
  lemma ScoresFollowEvidence(t: Signals, s: Signals, w: Weights)
    requires NoBetter(t, s) && NonNegativePoints(w) && NonNegativeMix(w) && Mass(w) > 0.0
    ensures
      var low, high := Score(t, w).value, Score(s, w).value;
      low.quality <= high.quality && low.relevance <= high.relevance && low.authority <= high.authority
      && low.spam >= high.spam && low.opportunity <= high.opportunity
  {
    PointsGrow(t, s, w);
    RelevanceGrows(t, s, w);
    SpamGrows(t, s, w);
    var low, high := Score(t, w).value, Score(s, w).value;
    ClampLaws(QualityPoints(t, w), QualityPoints(s, w));
    ClampLaws(RelevancePoints(t, w), RelevancePoints(s, w));
    ClampLaws(AuthorityPoints(t, w), AuthorityPoints(s, w));
    ClampLaws(SpamPoints(s, w), SpamPoints(t, w));
    hide Clamp, QualityPoints, RelevancePoints, SpamPoints, AuthorityPoints, NoBetter, Mass, Combined;
    CombinedGrows(low.quality, low.relevance, low.spam, low.authority, high.quality, high.relevance, high.spam, high.authority, w);
  }

  /**
   * Losing reachability, TLS, a submission path, free listing, indexability or any match, or gaining spam
   * signals or a paid listing, never turns a failing publisher into a passing one.
   */
  lemma WorseEvidenceNeverPasses(t: Signals, s: Signals, w: Weights)
    requires NoBetter(t, s) && NonNegativePoints(w) && NonNegativeMix(w) && !Passes(s, w)
    ensures !Passes(t, w)
  {
    if Mass(w) > 0.0 {
      ScoresFollowEvidence(t, s, w);
      RejectionsFollowEvidence(t, s);
      hide Combined, Clamp, QualityPoints, RelevancePoints, SpamPoints, AuthorityPoints, NoBetter, Rejections;
    }
  }

  lemma RejectionsFollowEvidence(t: Signals, s: Signals)
    requires NoBetter(t, s)
    ensures Rejections(t) == [] ==> Rejections(s) == []
  {
    if HasLinkScheme(s) {
      var i :| 0 <= i < |s.spamSignals| && s.spamSignals[i] in LINK_SCHEMES;
      assert s.spamSignals[i] in t.spamSignals;
      var j :| 0 <= j < |t.spamSignals| && t.spamSignals[j] == s.spamSignals[i];
      assert HasLinkScheme(t);
    }
  }

  /** The one-step cases: one more spam signal, or one merit fewer. */
  lemma OneFaultNeverHelps(s: Signals, w: Weights, spam: string)
    requires NonNegativePoints(w) && NonNegativeMix(w) && !Passes(s, w)
    ensures !Passes(s.(spamSignals := s.spamSignals + [spam]), w)
    ensures !Passes(s.(reachable := false), w) && !Passes(s.(tlsValid := false), w)
    ensures !Passes(s.(hasSubmissionPath := false), w) && !Passes(s.(indexable := false), w)
  {
    hide Passes, NonNegativePoints, NonNegativeMix, NoBetter;
    FaultsAreNoBetter(s, spam);
    WorseEvidenceNeverPasses(s.(spamSignals := s.spamSignals + [spam]), s, w);
    WorseEvidenceNeverPasses(s.(reachable := false), s, w);
    WorseEvidenceNeverPasses(s.(tlsValid := false), s, w);
    WorseEvidenceNeverPasses(s.(hasSubmissionPath := false), s, w);
    WorseEvidenceNeverPasses(s.(indexable := false), s, w);
  }

  lemma MoreSpamIsNoBetter(s: Signals, spam: string)
    ensures NoBetter(s.(spamSignals := s.spamSignals + [spam]), s)
  {
  }

  lemma FaultsAreNoBetter(s: Signals, spam: string)
    ensures NoBetter(s.(spamSignals := s.spamSignals + [spam]), s)
    ensures NoBetter(s.(reachable := false), s) && NoBetter(s.(tlsValid := false), s)
    ensures NoBetter(s.(hasSubmissionPath := false), s) && NoBetter(s.(indexable := false), s)
  {
    MoreSpamIsNoBetter(s, spam);
    hide NoBetter;
    FewerMerits(s, false, s.tlsValid, s.hasSubmissionPath, s.indexable);
    FewerMerits(s, s.reachable, false, s.hasSubmissionPath, s.indexable);
    FewerMerits(s, s.reachable, s.tlsValid, false, s.indexable);
    FewerMerits(s, s.reachable, s.tlsValid, s.hasSubmissionPath, false);
  }

  lemma FewerMerits(s: Signals, reachable: bool, tls: bool, path: bool, indexable: bool)
    requires (reachable ==> s.reachable) && (tls ==> s.tlsValid) && (path ==> s.hasSubmissionPath) && (indexable ==> s.indexable)
    ensures NoBetter(s.(reachable := reachable, tlsValid := tls, hasSubmissionPath := path, indexable := indexable), s)
  {
  }

  const LENIENT := Weights(
    1.0, 0.0, 0.0, 0.0, 0.0, 0.0, 0.0, 0.0, 0.0, 0.0, 0.0, 0.0, 0.0, 0.0, 0.0, 0.0, 0.0, 100.0, 0.0, 0.0)

  lemma LenientMass()
    ensures Mass(LENIENT) > 0.0
    ensures LENIENT.minQuality == 0.0 && LENIENT.maxSpam == 100.0 && LENIENT.minOpportunity == 0.0
  {
  }

  lemma LenientPasses(s: Signals)
    requires !HardRejected(s)
    ensures Passes(s, LENIENT)
  {
    hide Mass, Combined, Clamp, QualityPoints, RelevancePoints, SpamPoints, AuthorityPoints, Rejections, HardRejected;
    LenientMass();
    NoRejections(s);
    ScoresAreInRange(s, LENIENT);
  }

  lemma NoRejections(s: Signals)
    ensures Rejections(s) == [] <==> !HardRejected(s)
  {
  }

  /** The hard rejections are exactly the findings no weighting and no threshold can outvote. */
  lemma HardRejectionsAreExactlyTheFinalOnes(s: Signals)
    ensures HardRejected(s) <==> forall w: Weights :: !Passes(s, w)
  {
    hide HardRejected, Rejections, Combined, Clamp, QualityPoints, RelevancePoints, SpamPoints, AuthorityPoints, Mass;
    NoRejections(s);
    if !HardRejected(s) {
      LenientPasses(s);
    }
  }

  function Rescaled(w: Weights, k: real): Weights {
    w.(quality := Times(k, w.quality), relevance := Times(k, w.relevance), authority := Times(k, w.authority))
  }

  lemma MassRescales(q: real, r: real, a: real, w: Weights, k: real)
    ensures Mass(Rescaled(w, k)) == Times(k, Mass(w))
    ensures WeightedSum(q, r, a, Rescaled(w, k)) == Times(k, WeightedSum(q, r, a, w))
  {
    hide Times;
    Distribute(k, w.quality, w.relevance, w.authority);
    TimesSwaps(q, k, w.quality);
    TimesSwaps(r, k, w.relevance);
    TimesSwaps(a, k, w.authority);
    Distribute(k, Times(q, w.quality), Times(r, w.relevance), Times(a, w.authority));
  }

  /** Only the ratio of the three positive weights matters: scaling them together changes no score. */
  lemma OnlyTheMixMatters(s: Signals, w: Weights, k: real)
    requires k > 0.0
    ensures Score(s, Rescaled(w, k)) == Score(s, w)
  {
    var w' := Rescaled(w, k);
    SamePoints(s, w, w');
    MassSign(w, k);
    if Mass(w) > 0.0 {
      var r := Score(s, w).value;
      SameCombined(r.quality, r.relevance, r.spam, r.authority, w, k);
      hide Clamp, QualityPoints, RelevancePoints, SpamPoints, AuthorityPoints, Combined, Mass;
    }
  }

  lemma MassSign(w: Weights, k: real)
    requires k > 0.0
    ensures Mass(Rescaled(w, k)) > 0.0 <==> Mass(w) > 0.0
  {
    MassRescales(0.0, 0.0, 0.0, w, k);
    TimesSign(k, Mass(w));
    hide Times, Mass, Rescaled;
  }

  lemma SameCombined(q: real, r: real, p: real, a: real, w: Weights, k: real)
    requires k > 0.0 && Mass(w) > 0.0 && Mass(Rescaled(w, k)) > 0.0
    ensures Combined(q, r, p, a, Rescaled(w, k)) == Combined(q, r, p, a, w)
  {
    SameAverage(q, r, a, w, k);
    SamePenalty(p, w, Rescaled(w, k));
    hide Clamp, Average, Penalty, Mass, Rescaled;
  }

  lemma SamePenalty(p: real, w: Weights, w': Weights)
    requires w'.spam == w.spam
    ensures Penalty(p, w') == Penalty(p, w)
  {
  }

  lemma SameAverage(q: real, r: real, a: real, w: Weights, k: real)
    requires k > 0.0 && Mass(w) > 0.0 && Mass(Rescaled(w, k)) > 0.0
    ensures Average(q, r, a, Rescaled(w, k)) == Average(q, r, a, w)
  {
    MassRescales(q, r, a, w, k);
    SameQuotient(WeightedSum(q, r, a, w), Mass(w), k);
    hide WeightedSum, Mass, Times;
  }

  lemma SamePoints(s: Signals, w: Weights, w': Weights)
    requires w' == w.(quality := w'.quality, relevance := w'.relevance, authority := w'.authority, spam := w'.spam,
                      minQuality := w'.minQuality, maxSpam := w'.maxSpam, minOpportunity := w'.minOpportunity)
    ensures QualityPoints(s, w) == QualityPoints(s, w') && RelevancePoints(s, w) == RelevancePoints(s, w')
    ensures SpamPoints(s, w) == SpamPoints(s, w') && AuthorityPoints(s, w) == AuthorityPoints(s, w')
  {
  }

  // ---------------------------------------------------------------- why the weights must not be negative

  const FARM := Signals(
    true, None, true, true, true, false, true, 0, 0, true, true, true, None, None, [], Some(301))

  const PERVERSE := DEFAULT_WEIGHTS.(spamSignal := -22.0, maxSpam := 10.0)

  lemma Exactly(x: real)
    requires IsScore(x)
    ensures Clamp(x) == x
  {
    ClampLaws(x, x);
  }

  lemma ScoredAs(s: Signals, w: Weights, q: real, r: real, p: real, a: real, combined: real)
    requires IsScore(q) && IsScore(r) && IsScore(a) && IsScore(p)
    requires QualityPoints(s, w) == q && RelevancePoints(s, w) == r && AuthorityPoints(s, w) == a
    requires SpamPoints(s, w) == p || (SpamPoints(s, w) < 0.0 && p == 0.0)
    requires Mass(w) > 0.0 && combined == Average(q, r, a, w) - Penalty(p, w)
    ensures Score(s, w) == Ok(Scores(q, r, p, a, Clamp(combined), Rejections(s)))
  {
    Exactly(q);
    Exactly(r);
    Exactly(p);
    Exactly(a);
    ClampLaws(SpamPoints(s, w), 0.0);
    hide QualityPoints, RelevancePoints, AuthorityPoints, SpamPoints, Clamp, Average, Penalty, Rejections, Mass;
  }

  /** A publisher like `FARM`, with the signals it has. */
  lemma FarmPoints(s: Signals, w: Weights)
    requires s == FARM.(spamSignals := s.spamSignals) && w.maxKeyword >= 0.0
    ensures QualityPoints(s, w) == w.reachable + w.tls + w.submissionPath + w.freeListing + w.indexable
    ensures RelevancePoints(s, w) == w.category + w.country + w.language && AuthorityPoints(s, w) == w.defaultAuthority
    ensures SpamPoints(s, w) == SignalPoints(|s.spamSignals|, w) + w.outboundLinks
  {
    NoKeywords(w);
    hide KeywordPoints, SignalPoints;
  }

  lemma NoKeywords(w: Weights)
    requires w.maxKeyword >= 0.0
    ensures KeywordPoints(0, w) == 0.0
  {
    Nothing(w.keyword);
    hide Times;
  }

  lemma PerverseFigures()
    ensures Mass(PERVERSE) > 0.0 && Average(100.0, 40.0, 50.0, PERVERSE) >= 60.0
    ensures SignalPoints(0, PERVERSE) == 0.0 && SignalPoints(1, PERVERSE) == -22.0 && Penalty(0.0, PERVERSE) == 0.0
  {
    assert WeightedSum(100.0, 40.0, 50.0, PERVERSE) == 57.0 && Mass(PERVERSE) == 0.85;
    DividedBy(57.0, 60.0, 0.85);
    hide WeightedSum, Mass;
  }

  lemma PerverseSettings()
    ensures PERVERSE.maxKeyword == 60.0 && PERVERSE.outboundLinks == 18.0 && PERVERSE.defaultAuthority == 50.0
    ensures PERVERSE.reachable + PERVERSE.tls + PERVERSE.submissionPath + PERVERSE.freeListing + PERVERSE.indexable == 100.0
    ensures PERVERSE.category + PERVERSE.country + PERVERSE.language == 40.0
    ensures PERVERSE.minQuality == 45.0 && PERVERSE.maxSpam == 10.0 && PERVERSE.minOpportunity == 40.0
    ensures IsScore(100.0) && IsScore(40.0) && IsScore(50.0) && IsScore(18.0) && IsScore(0.0)
  {
  }

  lemma OneSignalIsClean(s: Signals)
    requires s.spamSignals == ["adult_content"] && s.reachable && !s.isPaidOnly && s.hasSubmissionPath
    ensures Rejections(s) == []
  {
    assert !HasLinkScheme(s);
    hide HasLinkScheme;
  }

  lemma FarmFails(s: Signals)
    requires s == FARM.(spamSignals := s.spamSignals) && |s.spamSignals| == 0
    ensures !Passes(s, PERVERSE)
  {
    hide Times, Average, Penalty, WeightedSum, Rejections, Mass, IsScore, Clamp, QualityPoints, RelevancePoints, AuthorityPoints, SpamPoints, SignalPoints, Score, Passes;
    PerverseSettings();
    PerverseFigures();
    FarmPoints(s, PERVERSE);
    ScoredAs(s, PERVERSE, 100.0, 40.0, 18.0, 50.0, Average(100.0, 40.0, 50.0, PERVERSE) - Penalty(18.0, PERVERSE));
    FailsOnSpam(s, PERVERSE, 18.0);
  }

  lemma FarmPasses(s: Signals)
    requires s == FARM.(spamSignals := s.spamSignals) && |s.spamSignals| == 1 && Rejections(s) == []
    ensures Passes(s, PERVERSE)
  {
    hide Times, Average, Penalty, WeightedSum, Rejections, Mass, IsScore, Clamp, QualityPoints, RelevancePoints, AuthorityPoints, SpamPoints, SignalPoints, Score, Passes;
    PerverseSettings();
    PerverseFigures();
    FarmPoints(s, PERVERSE);
    var combined := Average(100.0, 40.0, 50.0, PERVERSE) - Penalty(0.0, PERVERSE);
    ScoredAs(s, PERVERSE, 100.0, 40.0, 0.0, 50.0, combined);
    ClampLaws(40.0, combined);
    Exactly(40.0);
    PassesAt(s, PERVERSE, 100.0, 0.0, combined);
  }

  /** Stored settings may be negative; then a spam signal can be what lets a publisher through. */
  lemma NegativePointsRewardSpam()
    ensures !Passes(FARM, PERVERSE) && Passes(FARM.(spamSignals := ["adult_content"]), PERVERSE)
  {
    hide Passes, Rejections;
    OneSignalIsClean(FARM.(spamSignals := ["adult_content"]));
    FarmFails(FARM);
    FarmPasses(FARM.(spamSignals := ["adult_content"]));
  }

  lemma FailsOnSpam(s: Signals, w: Weights, spam: real)
    requires Score(s, w).Ok? && Score(s, w).value.spam == spam && spam > w.maxSpam
    ensures !Passes(s, w)
  {
    hide Score;
  }

  lemma PassesAt(s: Signals, w: Weights, quality: real, spam: real, combined: real)
    requires Score(s, w).Ok? && Score(s, w).value.quality == quality && Score(s, w).value.spam == spam
    requires Score(s, w).value.opportunity == Clamp(combined) && Score(s, w).value.rejections == []
    requires quality >= w.minQuality && spam <= w.maxSpam && Clamp(combined) >= w.minOpportunity
    ensures Passes(s, w)
  {
    hide Score, Clamp;
  }

  // ---------------------------------------------------------------- exactly when spam can help

  /** The spam score of a site with `n` signals. */
  function SpamOf(n: nat, farm: bool, w: Weights): real {
    Clamp(SignalPoints(n, w) + Points(farm, w.outboundLinks))
  }

  lemma SpamOfSignals(s: Signals, w: Weights)
    ensures Clamp(SpamPoints(s, w)) == SpamOf(|s.spamSignals|, LinkFarm(s), w)
  {
    hide Clamp, SignalPoints;
  }

  predicate SpamCounts(w: Weights) {
    w.spamSignal >= 0.0 || Clamp(w.outboundLinks) == 0.0
  }

  lemma SignalsAdd(n: nat, w: Weights)
    ensures SignalPoints(n + 1, w) == SignalPoints(n, w) + w.spamSignal
    ensures w.spamSignal < 0.0 ==> SignalPoints(n, w) <= 0.0
    ensures SignalPoints(0, w) == 0.0
  {
    hide Times;
    TimesAdds(n as real, 1.0, w.spamSignal);
    assert (n + 1) as real == n as real + 1.0;
    Nothing(w.spamSignal);
    if w.spamSignal < 0.0 {
      ScaledBack(0.0, n as real, w.spamSignal);
    }
  }

  lemma OneMoreSignal(n: nat, farm: bool, w: Weights)
    requires SpamCounts(w)
    ensures SpamOf(n, farm, w) <= SpamOf(n + 1, farm, w)
  {
    hide SignalPoints, Clamp;
    SignalsAdd(n, w);
    SignalsAdd(n + 1, w);
    var extra := Points(farm, w.outboundLinks);
    NothingIsNothing();
    if w.spamSignal >= 0.0 {
      ClampLaws(SignalPoints(n, w) + extra, SignalPoints(n + 1, w) + extra);
    } else {
      ClampLaws(SignalPoints(n, w) + extra, extra);
      ClampLaws(SignalPoints(n + 1, w) + extra, extra);
    }
  }

  lemma NothingIsNothing()
    ensures Clamp(0.0) == 0.0
  {
  }

  /** Enough negative points outweigh any number. */
  lemma Outweighed(x: real, step: real) returns (n: nat)
    requires step < 0.0
    ensures Times(n as real, step) + x <= 0.0
  {
    hide Times;
    var ratio := if x > 0.0 then x / -step else 0.0;
    n := ratio.Floor + 1;
    Undivided(x, -step);
    Nothing(-step);
    Scaled(ratio, n as real, -step);
    Opposite(n as real, step);
  }

  /** So they wear any penalty away. */
  lemma WornAway(w: Weights) returns (n: nat)
    requires w.spamSignal < 0.0
    ensures SpamOf(n, true, w) == 0.0
  {
    n := Outweighed(w.outboundLinks, w.spamSignal);
    assert SignalPoints(n, w) + w.outboundLinks <= 0.0;
    hide SignalPoints, Clamp;
    ClampLaws(SignalPoints(n, w) + w.outboundLinks, 0.0);
    NothingIsNothing();
  }

  /** Somewhere on the way there, one more signal lowers the score. */
  lemma {:induction false} FallsBefore(w: Weights, n: nat) returns (k: nat)
    requires SpamOf(n, true, w) < SpamOf(0, true, w)
    ensures SpamOf(k + 1, true, w) < SpamOf(k, true, w)
  {
    hide SpamOf;
    if SpamOf(n, true, w) < SpamOf(n - 1, true, w) {
      k := n - 1;
    } else {
      k := FallsBefore(w, n - 1);
    }
  }

  lemma FallingStep(w: Weights) returns (k: nat)
    requires !SpamCounts(w)
    ensures SpamOf(k + 1, true, w) < SpamOf(k, true, w)
  {
    var n := WornAway(w);
    ClampLaws(w.outboundLinks, 0.0);
    SignalsAdd(0, w);
    hide Clamp, SignalPoints;
    assert SpamOf(0, true, w) == Clamp(w.outboundLinks);
    hide SpamOf;
    k := FallsBefore(w, n);
  }

  /** `n` signals that are no hard rejection, on a site that is otherwise beyond reproach. */
  function Benign(n: nat): Signals {
    FARM.(spamSignals := seq(n, i => "thin_content"))
  }

  lemma BenignIsClean(n: nat)
    ensures Rejections(Benign(n)) == [] && |Benign(n).spamSignals| == n && LinkFarm(Benign(n))
    ensures Benign(n).(spamSignals := Benign(n).spamSignals + ["thin_content"]) == Benign(n + 1)
  {
    assert forall i :: 0 <= i < n ==> Benign(n).spamSignals[i] == "thin_content";
    assert "thin_content" !in LINK_SCHEMES;
    assert !HasLinkScheme(Benign(n));
    assert Benign(n).spamSignals + ["thin_content"] == Benign(n + 1).spamSignals;
  }

  function Worse(s: Signals, x: string): Signals {
    s.(spamSignals := s.spamSignals + [x])
  }

  /** One more spam signal never lowers the spam score if and only if signals cost something, or there is nothing to lower. */
  lemma SpamNeverFallsExactlyWhen(w: Weights)
    ensures (forall s, x :: Clamp(SpamPoints(s, w)) <= Clamp(SpamPoints(Worse(s, x), w))) <==> SpamCounts(w)
  {
    hide Clamp, SpamPoints, SpamOf, SpamCounts, LinkFarm;
    if SpamCounts(w) {
      forall s, x
        ensures Clamp(SpamPoints(s, w)) <= Clamp(SpamPoints(Worse(s, x), w))
      {
        SpamOfSignals(s, w);
        SpamOfSignals(Worse(s, x), w);
        FarmKept(s, x);
        OneMoreSignal(|s.spamSignals|, LinkFarm(s), w);
      }
    } else {
      var k := FallingStep(w);
      BenignIsClean(k);
      BenignIsClean(k + 1);
      SpamOfSignals(Benign(k), w);
      SpamOfSignals(Benign(k + 1), w);
      hide Benign;
      assert Worse(Benign(k), "thin_content") == Benign(k + 1);
    }
  }

  lemma FarmKept(s: Signals, x: string)
    ensures LinkFarm(Worse(s, x)) == LinkFarm(s)
  {
  }

  /** The same weights with other thresholds. */
  function Judging(w: Weights, minQuality: real, maxSpam: real, minOpportunity: real): Weights {
    w.(minQuality := minQuality, maxSpam := maxSpam, minOpportunity := minOpportunity)
  }

  lemma SameScores(s: Signals, w: Weights, a: real, b: real, c: real)
    ensures Score(s, Judging(w, a, b, c)) == Score(s, w)
  {
    var w' := Judging(w, a, b, c);
    SamePoints(s, w', w);
    if Mass(w) > 0.0 {
      var r := Score(s, w).value;
      JudgingCombines(r.quality, r.relevance, r.spam, r.authority, w, a, b, c);
    }
    hide Combined, Clamp, QualityPoints, RelevancePoints, SpamPoints, AuthorityPoints, Rejections;
  }

  lemma JudgingCombines(q: real, r: real, p: real, x: real, w: Weights, a: real, b: real, c: real)
    requires Mass(w) > 0.0
    ensures Mass(Judging(w, a, b, c)) == Mass(w) && Combined(q, r, p, x, Judging(w, a, b, c)) == Combined(q, r, p, x, w)
  {
    MixCombines(q, r, p, x, Judging(w, a, b, c), w);
    hide Combined, Mass;
  }

  /** Everything but spam is unmoved by a signal. */
  lemma OnlySpamMoves(s: Signals, x: string, w: Weights)
    ensures QualityPoints(Worse(s, x), w) == QualityPoints(s, w) && RelevancePoints(Worse(s, x), w) == RelevancePoints(s, w)
    ensures AuthorityPoints(Worse(s, x), w) == AuthorityPoints(s, w)
  {
    hide KeywordPoints;
  }

  lemma PenaltyGrows(p: real, p': real, w: Weights)
    requires w.spam >= 0.0 && p <= p'
    ensures Penalty(p, w) <= Penalty(p', w)
  {
    hide Times;
    Scaled(p, p', w.spam);
  }

  lemma PenaltyShrinks(p: real, p': real, w: Weights)
    requires w.spam <= 0.0 && p <= p'
    ensures Penalty(p', w) <= Penalty(p, w)
  {
    hide Times;
    ScaledBack(p, p', w.spam);
  }

  /** The opportunity score the site would have at a spam score of `p`. */
  function At(s: Signals, p: real, w: Weights): real
    requires Mass(w) > 0.0
  {
    Combined(Clamp(QualityPoints(s, w)), Clamp(RelevancePoints(s, w)), p, Clamp(AuthorityPoints(s, w)), w)
  }

  lemma CombinedFollowsSpam(q: real, r: real, a: real, p: real, p': real, w: Weights)
    requires Mass(w) > 0.0 && p <= p'
    ensures w.spam >= 0.0 ==> Combined(q, r, p', a, w) <= Combined(q, r, p, a, w)
    ensures w.spam <= 0.0 ==> Combined(q, r, p, a, w) <= Combined(q, r, p', a, w)
  {
    hide Penalty, Average, Clamp, Mass;
    if w.spam >= 0.0 {
      PenaltyGrows(p, p', w);
      ClampLaws(Average(q, r, a, w) - Penalty(p', w), Average(q, r, a, w) - Penalty(p, w));
    }
    if w.spam <= 0.0 {
      PenaltyShrinks(p, p', w);
      ClampLaws(Average(q, r, a, w) - Penalty(p, w), Average(q, r, a, w) - Penalty(p', w));
    }
  }

  lemma RejectionsStay(s: Signals, x: string)
    ensures Rejections(Worse(s, x)) == [] ==> Rejections(s) == []
  {
    if HasLinkScheme(s) {
      var i :| 0 <= i < |s.spamSignals| && s.spamSignals[i] in LINK_SCHEMES;
      assert Worse(s, x).spamSignals[i] == s.spamSignals[i];
      assert HasLinkScheme(Worse(s, x));
    }
    hide HasLinkScheme;
  }

  /** If the signal costs nothing in spam score and gains nothing in opportunity, a pass with it is a pass without it. */
  lemma PassesWithout(s: Signals, x: string, w: Weights)
    requires Mass(w) > 0.0 && Passes(Worse(s, x), w)
    requires Clamp(SpamPoints(s, w)) <= Clamp(SpamPoints(Worse(s, x), w))
    requires At(s, Clamp(SpamPoints(Worse(s, x), w)), w) <= At(s, Clamp(SpamPoints(s, w)), w)
    ensures Passes(s, w)
  {
    hide Clamp, QualityPoints, RelevancePoints, SpamPoints, AuthorityPoints, Combined, Rejections, Mass;
    OnlySpamMoves(s, x, w);
    RejectionsStay(s, x);
  }

  lemma HelpfulSignal(w: Weights) returns (s: Signals, maxSpam: real)
    requires Mass(w) > 0.0 && !SpamCounts(w)
    ensures
      var judged := Judging(w, 0.0, maxSpam, 0.0);
      Passes(Worse(s, "thin_content"), judged) && !Passes(s, judged)
  {
    hide Clamp, QualityPoints, RelevancePoints, SpamPoints, AuthorityPoints, Combined, SpamCounts, Rejections, Benign, LinkFarm, SpamOf;
    var k := FallingStep(w);
    s := Benign(k);
    maxSpam := SpamOf(k + 1, true, w);
    BenignIsClean(k);
    BenignIsClean(k + 1);
    SpamOfSignals(s, w);
    SpamOfSignals(Benign(k + 1), w);
    SameScores(s, w, 0.0, maxSpam, 0.0);
    SameScores(Benign(k + 1), w, 0.0, maxSpam, 0.0);
    ScoresAreInRange(Benign(k + 1), w);
  }

  // A negative spam weight rewards spam.

  /** No publisher free of hard rejections scores higher at full spam than at none. */
  ghost predicate RewardIsUnseen(w: Weights)
    requires Mass(w) > 0.0
  {
    forall s :: !HardRejected(s) ==> At(s, 100.0, w) <= At(s, 0.0, w)
  }

  /** What makes spam harmless under the given weights, whatever the thresholds. */
  ghost predicate SpamIsHarmless(w: Weights)
    requires Mass(w) > 0.0
  {
    SpamCounts(w) && (w.spam >= 0.0 || w.spamSignal <= 0.0 || RewardIsUnseen(w))
  }

  lemma WorthlessSignals(n: nat, farm: bool, w: Weights)
    requires SpamCounts(w) && w.spamSignal <= 0.0
    ensures SpamOf(n + 1, farm, w) == SpamOf(n, farm, w)
  {
    hide SignalPoints, Clamp;
    SignalsAdd(n, w);
    SignalsAdd(n + 1, w);
    NothingIsNothing();
    var extra := Points(farm, w.outboundLinks);
    if w.spamSignal < 0.0 {
      ClampLaws(SignalPoints(n, w) + extra, extra);
      ClampLaws(SignalPoints(n + 1, w) + extra, extra);
      ClampLaws(0.0, SignalPoints(n, w) + extra);
    }
  }

  /** An unseen reward is the same at every spam score. */
  lemma UnseenReward(s: Signals, p: real, p': real, w: Weights)
    requires Mass(w) > 0.0 && w.spam <= 0.0 && RewardIsUnseen(w) && !HardRejected(s) && 0.0 <= p <= p' <= 100.0
    ensures At(s, p', w) <= At(s, p, w)
  {
    assert At(s, 100.0, w) <= At(s, 0.0, w);
    hide Combined, HardRejected, Mass;
    var q, r, a := Clamp(QualityPoints(s, w)), Clamp(RelevancePoints(s, w)), Clamp(AuthorityPoints(s, w));
    hide Clamp, QualityPoints, RelevancePoints, AuthorityPoints;
    CombinedFollowsSpam(q, r, a, 0.0, p, w);
    CombinedFollowsSpam(q, r, a, p', 100.0, w);
  }

  lemma PassingIsClean(s: Signals, x: string, w: Weights)
    requires Passes(Worse(s, x), w)
    ensures !HardRejected(s)
  {
    hide Rejections, Combined, Clamp, QualityPoints, RelevancePoints, SpamPoints, AuthorityPoints, HardRejected;
    RejectionsStay(s, x);
    NoRejections(s);
  }

  lemma HarmlessSpamNeverHelps(s: Signals, x: string, w: Weights)
    requires Mass(w) > 0.0 && SpamIsHarmless(w) && Passes(Worse(s, x), w)
    ensures Passes(s, w)
  {
    hide Clamp, QualityPoints, RelevancePoints, SpamPoints, AuthorityPoints, Combined, SpamCounts, Mass, SpamOf, LinkFarm, Passes, RewardIsUnseen, HardRejected;
    SpamOfSignals(s, w);
    SpamOfSignals(Worse(s, x), w);
    FarmKept(s, x);
    OneMoreSignal(|s.spamSignals|, LinkFarm(s), w);
    SpamInRange(s, w);
    SpamInRange(Worse(s, x), w);
    var p, p' := Clamp(SpamPoints(s, w)), Clamp(SpamPoints(Worse(s, x), w));
    if w.spam >= 0.0 {
      CombinedFollowsSpam(Clamp(QualityPoints(s, w)), Clamp(RelevancePoints(s, w)), Clamp(AuthorityPoints(s, w)), p, p', w);
    } else if w.spamSignal <= 0.0 {
      WorthlessSignals(|s.spamSignals|, LinkFarm(s), w);
    } else {
      PassingIsClean(s, x, w);
      UnseenReward(s, p, p', w);
    }
    PassesWithout(s, x, w);
  }

  lemma SpamInRange(s: Signals, w: Weights)
    ensures 0.0 <= Clamp(SpamPoints(s, w)) <= 100.0
  {
    hide SpamPoints;
  }

  /** The site with `n` harmless-looking signals in place of its own. */
  function WithBenign(s: Signals, n: nat): Signals {
    s.(spamSignals := seq(n, i => "thin_content"), outboundLinks := None)
  }

  lemma BenignOn(s: Signals, n: nat, w: Weights)
    requires !HardRejected(s)
    ensures Rejections(WithBenign(s, n)) == [] && Worse(WithBenign(s, n), "thin_content") == WithBenign(s, n + 1)
    ensures |WithBenign(s, n).spamSignals| == n && !LinkFarm(WithBenign(s, n))
    ensures QualityPoints(WithBenign(s, n), w) == QualityPoints(s, w) && RelevancePoints(WithBenign(s, n), w) == RelevancePoints(s, w)
    ensures AuthorityPoints(WithBenign(s, n), w) == AuthorityPoints(s, w)
  {
    hide KeywordPoints;
    var t := WithBenign(s, n);
    assert forall i :: 0 <= i < n ==> t.spamSignals[i] == "thin_content";
    assert "thin_content" !in LINK_SCHEMES;
    assert !HasLinkScheme(t);
    assert t.spamSignals + ["thin_content"] == WithBenign(s, n + 1).spamSignals;
  }

  /** Enough signals that cost something reach the full spam score. */
  lemma FillsUp(w: Weights) returns (n: nat)
    requires w.spamSignal > 0.0
    ensures SpamOf(n, false, w) == 100.0
  {
    n := Outweighed(100.0, -w.spamSignal);
    Opposite(n as real, w.spamSignal);
    assert SignalPoints(n, w) >= 100.0;
    hide Times, SignalPoints, Clamp;
    FullIsFull();
    ClampLaws(100.0, SignalPoints(n, w) + 0.0);
  }

  lemma FullIsFull()
    ensures Clamp(100.0) == 100.0
  {
    assert IsScore(100.0);
    Exactly(100.0);
  }

  /** Somewhere on the way from none to full, one more signal raises the opportunity score. */
  lemma {:induction false} RisesBefore(s: Signals, w: Weights, n: nat) returns (k: nat)
    requires Mass(w) > 0.0 && At(s, SpamOf(n, false, w), w) > At(s, SpamOf(0, false, w), w)
    ensures At(s, SpamOf(k + 1, false, w), w) > At(s, SpamOf(k, false, w), w)
  {
    hide At, SpamOf, Mass;
    if At(s, SpamOf(n, false, w), w) > At(s, SpamOf(n - 1, false, w), w) {
      k := n - 1;
    } else {
      k := RisesBefore(s, w, n - 1);
    }
  }

  lemma ScoreOfBenign(s: Signals, n: nat, w: Weights)
    requires Mass(w) > 0.0 && !HardRejected(s)
    ensures Score(WithBenign(s, n), w).Ok?
    ensures
      var r := Score(WithBenign(s, n), w).value;
      r.opportunity == At(s, SpamOf(n, false, w), w) && r.rejections == [] && 0.0 <= r.quality && r.spam <= 100.0
  {
    BenignOn(s, n, w);
    SpamOfSignals(WithBenign(s, n), w);
    ScoresAreInRange(WithBenign(s, n), w);
    hide Clamp, QualityPoints, RelevancePoints, AuthorityPoints, SpamPoints, Combined, Rejections, HardRejected, Mass, WithBenign, SpamOf;
  }

  lemma RewardedSignal(s: Signals, w: Weights) returns (t: Signals, minOpportunity: real)
    requires Mass(w) > 0.0 && w.spamSignal > 0.0 && !HardRejected(s) && At(s, 100.0, w) > At(s, 0.0, w)
    ensures
      var judged := Judging(w, 0.0, 100.0, minOpportunity);
      Passes(Worse(t, "thin_content"), judged) && !Passes(t, judged)
  {
    hide Clamp, At, HardRejected, Mass, WithBenign, SpamOf, Score, Worse;
    var n := FillsUp(w);
    NoSignals(w);
    var k := RisesBefore(s, w, n);
    t := WithBenign(s, k);
    minOpportunity := At(s, SpamOf(k + 1, false, w), w);
    BenignOn(s, k, w);
    ScoreOfBenign(s, k, w);
    ScoreOfBenign(s, k + 1, w);
    SameScores(t, w, 0.0, 100.0, minOpportunity);
    SameScores(WithBenign(s, k + 1), w, 0.0, 100.0, minOpportunity);
  }

  lemma NoSignals(w: Weights)
    ensures SpamOf(0, false, w) == 0.0
  {
    SignalsAdd(0, w);
    NothingIsNothing();
    hide SignalPoints, Clamp;
  }

  lemma JudgingAt(s: Signals, p: real, w: Weights, a: real, b: real, c: real)
    requires Mass(w) > 0.0
    ensures Mass(Judging(w, a, b, c)) == Mass(w) && At(s, p, Judging(w, a, b, c)) == At(s, p, w)
  {
    SamePoints(s, Judging(w, a, b, c), w);
    JudgingCombines(Clamp(QualityPoints(s, w)), Clamp(RelevancePoints(s, w)), p, Clamp(AuthorityPoints(s, w)), w, a, b, c);
    hide Clamp, QualityPoints, RelevancePoints, AuthorityPoints, Combined, Mass;
  }

  lemma JudgingKeeps(w: Weights, a: real, b: real, c: real)
    requires Mass(w) > 0.0 && SpamIsHarmless(w)
    ensures Mass(Judging(w, a, b, c)) > 0.0 && SpamIsHarmless(Judging(w, a, b, c))
  {
    hide Clamp, At, HardRejected;
    var w' := Judging(w, a, b, c);
    assert Mass(w') == Mass(w) && (SpamCounts(w') <==> SpamCounts(w));
    if RewardIsUnseen(w) {
      forall s | !HardRejected(s)
        ensures At(s, 100.0, w') <= At(s, 0.0, w')
      {
        JudgingAt(s, 100.0, w, a, b, c);
        JudgingAt(s, 0.0, w, a, b, c);
      }
    }
  }

  /**
   * One more spam signal turns no failure into a pass, for any publisher and any thresholds, if and only if the
   * spam points count and, where the spam weight is negative and signals cost something, no publisher free of
   * hard rejections gains from a full spam score.
   */
  lemma SpamNeverHelpsExactlyWhen(w: Weights)
    requires Mass(w) > 0.0
    ensures
      (forall s, x, a, b, c :: Passes(Worse(s, x), Judging(w, a, b, c)) ==> Passes(s, Judging(w, a, b, c))) <==> SpamIsHarmless(w)
  {
    hide Passes, SpamCounts, Worse, Mass, At, HardRejected;
    if SpamIsHarmless(w) {
      forall s, x, a, b, c | Passes(Worse(s, x), Judging(w, a, b, c))
        ensures Passes(s, Judging(w, a, b, c))
      {
        JudgingKeeps(w, a, b, c);
        hide SpamIsHarmless;
        HarmlessSpamNeverHelps(s, x, Judging(w, a, b, c));
      }
    } else if !SpamCounts(w) {
      var s, maxSpam := HelpfulSignal(w);
    } else {
      var s :| !HardRejected(s) && At(s, 100.0, w) > At(s, 0.0, w);
      var t, minOpportunity := RewardedSignal(s, w);
    }
  }

  /** A reachable, indexable site with a path and a middling authority. */
  const MIDDLING := Signals(
    true, None, false, true, false, false, true, 0, 0, false, false, false, Some(40.0), None, [], None)

  const INVERTED := DEFAULT_WEIGHTS.(spam := -0.15)

  lemma MiddlingPoints(s: Signals, w: Weights)
    requires s == MIDDLING.(spamSignals := s.spamSignals) && w.maxKeyword >= 0.0
    ensures QualityPoints(s, w) == w.reachable + w.submissionPath + w.indexable && RelevancePoints(s, w) == 0.0
    ensures AuthorityPoints(s, w) == 40.0 && SpamPoints(s, w) == SignalPoints(|s.spamSignals|, w)
  {
    NoKeywords(w);
    hide KeywordPoints, SignalPoints;
  }

  lemma InvertedFigures()
    ensures Mass(INVERTED) > 0.0 && SpamCounts(INVERTED) && SignalPoints(0, INVERTED) == 0.0 && SignalPoints(1, INVERTED) == 22.0
    ensures Average(70.0, 0.0, 40.0, INVERTED) <= 38.5 && Average(70.0, 0.0, 40.0, INVERTED) >= 38.0
    ensures Penalty(0.0, INVERTED) == 0.0 && Penalty(22.0, INVERTED) == -3.3
  {
    hide Clamp;
    assert WeightedSum(70.0, 0.0, 40.0, INVERTED) == 32.5 && Mass(INVERTED) == 0.85;
    DividedBy(32.5, 38.5, 0.85);
    DividedBy(32.5, 38.0, 0.85);
    hide WeightedSum, Mass;
  }

  lemma InvertedSettings()
    ensures INVERTED.maxKeyword == 60.0 && INVERTED.reachable + INVERTED.submissionPath + INVERTED.indexable == 70.0
    ensures INVERTED.minQuality == 45.0 && INVERTED.maxSpam == 50.0 && INVERTED.minOpportunity == 40.0
    ensures IsScore(70.0) && IsScore(0.0) && IsScore(40.0) && IsScore(22.0)
  {
  }

  lemma MiddlingScores(s: Signals, spam: real)
    requires s == MIDDLING.(spamSignals := s.spamSignals) && SignalPoints(|s.spamSignals|, INVERTED) == spam && IsScore(spam)
    ensures
      Mass(INVERTED) > 0.0
      && Score(s, INVERTED)
      == Ok(Scores(70.0, 0.0, spam, 40.0, Clamp(Average(70.0, 0.0, 40.0, INVERTED) - Penalty(spam, INVERTED)), Rejections(s)))
  {
    hide Times, QualityPoints, RelevancePoints, AuthorityPoints, SpamPoints, Average, Penalty, IsScore, Mass, Clamp, Rejections, Score, SignalPoints;
    InvertedFigures();
    InvertedSettings();
    MiddlingPoints(s, INVERTED);
    ScoredAs(s, INVERTED, 70.0, 0.0, spam, 40.0, Average(70.0, 0.0, 40.0, INVERTED) - Penalty(spam, INVERTED));
  }

  lemma MiddlingFails(s: Signals)
    requires s == MIDDLING.(spamSignals := s.spamSignals) && |s.spamSignals| == 0
    ensures !Passes(s, INVERTED)
  {
    hide Times, Average, Penalty, IsScore, Mass, Clamp, Rejections, Score, SignalPoints, Passes;
    InvertedFigures();
    InvertedSettings();
    MiddlingScores(s, 0.0);
    BelowForty(Average(70.0, 0.0, 40.0, INVERTED));
    FailsOnOpportunity(s, INVERTED);
  }

  lemma MiddlingPasses(s: Signals)
    requires s == MIDDLING.(spamSignals := s.spamSignals) && |s.spamSignals| == 1 && Rejections(s) == []
    ensures Passes(s, INVERTED)
  {
    hide Times, Average, Penalty, IsScore, Mass, Clamp, Rejections, Score, SignalPoints, Passes;
    InvertedFigures();
    InvertedSettings();
    MiddlingScores(s, 22.0);
    var combined := Average(70.0, 0.0, 40.0, INVERTED) - Penalty(22.0, INVERTED);
    ClampLaws(40.0, combined);
    Exactly(40.0);
    PassesAt(s, INVERTED, 70.0, 22.0, combined);
  }

  /** Under a negative spam weight the points may count and a spam signal still lets a publisher through. */
  lemma NegativeSpamWeightRewardsSpam()
    ensures SpamCounts(INVERTED)
    ensures !Passes(MIDDLING, INVERTED) && Passes(MIDDLING.(spamSignals := ["adult_content"]), INVERTED)
  {
    hide Passes, Rejections, SpamCounts, Clamp;
    InvertedFigures();
    OneSignalIsClean(MIDDLING.(spamSignals := ["adult_content"]));
    MiddlingFails(MIDDLING);
    MiddlingPasses(MIDDLING.(spamSignals := ["adult_content"]));
  }

  lemma FailsOnOpportunity(s: Signals, w: Weights)
    requires Score(s, w).Ok? && Score(s, w).value.opportunity < w.minOpportunity
    ensures !Passes(s, w)
  {
    hide Score;
  }

  lemma BelowForty(x: real)
    requires x <= 38.5
    ensures Clamp(x - 0.0) < 40.0
  {
    assert IsScore(38.5);
    Exactly(38.5);
    ClampLaws(x - 0.0, 38.5);
    hide Clamp;
  }

  // ---------------------------------------------------------------- exactly when the score stays among its parts

  predicate InRange(x: real) {
    0.0 <= x <= 100.0
  }

  /** The part of the weight mass that counts backwards. */
  function Backwards(w: Weights): real {
    Max(0.0, -w.quality) + Max(0.0, -w.relevance) + Max(0.0, -w.authority)
  }

  lemma BackwardsSign(w: Weights)
    ensures Backwards(w) >= 0.0
    ensures Backwards(w) == 0.0 <==> w.quality >= 0.0 && w.relevance >= 0.0 && w.authority >= 0.0
  {
  }

  /** One part against its weight: at its worst, `top` on a forward weight and nothing on a backward one. */
  lemma WorstPart(x: real, top: real, weight: real)
    requires 0.0 <= x <= top
    ensures Times(x, weight) <= Times(top, weight + Max(0.0, -weight))
  {
    hide Times;
    if weight >= 0.0 {
      Scaled(x, top, weight);
    } else {
      ScaledBack(0.0, x, weight);
      Nothing(weight);
      Nothing(top);
    }
  }

  /** However the parts lie in 0..top, their weighted sum stays within the mass and what counts backwards. */
  lemma SumBelow(q: real, r: real, a: real, top: real, w: Weights)
    requires 0.0 <= q <= top && 0.0 <= r <= top && 0.0 <= a <= top
    ensures WeightedSum(q, r, a, w) <= Times(top, Mass(w) + Backwards(w))
  {
    hide Times;
    WorstPart(q, top, w.quality);
    WorstPart(r, top, w.relevance);
    WorstPart(a, top, w.authority);
    var x, y, z := w.quality + Max(0.0, -w.quality), w.relevance + Max(0.0, -w.relevance), w.authority + Max(0.0, -w.authority);
    Distribute(top, x, y, z);
    assert x + y + z == Mass(w) + Backwards(w);
  }

  /** The parts that reach that: `top` where the weight counts forwards, zero elsewhere. */
  function Pick(top: real, weight: real): real {
    if weight >= 0.0 then top else 0.0
  }

  lemma PickedPart(top: real, weight: real)
    ensures Times(Pick(top, weight), weight) == Times(top, weight + Max(0.0, -weight))
  {
    hide Times;
    Nothing(weight);
    Nothing(top);
  }

  lemma SumAttained(top: real, w: Weights)
    ensures WeightedSum(Pick(top, w.quality), Pick(top, w.relevance), Pick(top, w.authority), w) == Times(top, Mass(w) + Backwards(w))
  {
    hide Times;
    PickedPart(top, w.quality);
    PickedPart(top, w.relevance);
    PickedPart(top, w.authority);
    var x, y, z := w.quality + Max(0.0, -w.quality), w.relevance + Max(0.0, -w.relevance), w.authority + Max(0.0, -w.authority);
    Distribute(top, x, y, z);
    assert x + y + z == Mass(w) + Backwards(w);
    hide Pick;
  }

  /** How far the average can run above its largest part, per point of that part. */
  function Overrun(w: Weights): real
    requires Mass(w) > 0.0
  {
    Backwards(w) / Mass(w)
  }

  function Gained(top: real, w: Weights): real
    requires Mass(w) > 0.0
  {
    Times(top, Overrun(w))
  }

  /** What a full spam score earns when its weight is negative. */
  function SpamReward(w: Weights): real {
    Times(100.0, Max(0.0, -w.spam))
  }

  lemma OverrunTimes(top: real, w: Weights)
    requires Mass(w) > 0.0
    ensures Times(top, Mass(w) + Backwards(w)) / Mass(w) == top + Gained(top, w)
    ensures Overrun(w) >= 0.0 && (Overrun(w) == 0.0 <==> Backwards(w) == 0.0)
    ensures Overrun(w) == 0.0 ==> Gained(top, w) == 0.0
    ensures Overrun(w) > 0.0 && top > 0.0 ==> Gained(top, w) > 0.0
  {
    BackwardsSign(w);
    var mass, back := Mass(w), Backwards(w);
    Shares(top, mass, back);
    hide Mass, Backwards, Times;
  }

  lemma Shares(top: real, mass: real, back: real)
    requires mass > 0.0 && back >= 0.0
    ensures Times(top, mass + back) / mass == top + Times(top, back / mass)
    ensures back / mass >= 0.0 && (back / mass == 0.0 <==> back == 0.0)
    ensures back / mass == 0.0 ==> Times(top, back / mass) == 0.0
    ensures back / mass > 0.0 && top > 0.0 ==> Times(top, back / mass) > 0.0
  {
    var share := back / mass;
    assert share * mass == back;
    assert top * (mass + back) == (top + top * share) * mass;
    Quotient(Times(top, mass + back), top + Times(top, share), mass);
  }

  lemma AverageBelow(q: real, r: real, a: real, top: real, w: Weights)
    requires Mass(w) > 0.0 && 0.0 <= q <= top && 0.0 <= r <= top && 0.0 <= a <= top
    ensures Average(q, r, a, w) <= top + Gained(top, w)
  {
    SumBelow(q, r, a, top, w);
    OverrunTimes(top, w);
    hide Times, WeightedSum, Mass, Overrun, Backwards, Gained;
    QuotientGrows(WeightedSum(q, r, a, w), Times(top, Mass(w) + Backwards(w)), Mass(w));
  }

  lemma AverageAttained(top: real, w: Weights)
    requires Mass(w) > 0.0
    ensures Average(Pick(top, w.quality), Pick(top, w.relevance), Pick(top, w.authority), w) == top + Gained(top, w)
  {
    SumAttained(top, w);
    OverrunTimes(top, w);
    hide Times, WeightedSum, Mass, Overrun, Backwards, Pick, Gained;
  }

  /** The weighted average never exceeds its largest part if and only if none of the three weights is negative. */
  lemma AverageStaysBelowExactlyWhen(w: Weights)
    requires Mass(w) > 0.0
    ensures
      (forall q, r, a :: InRange(q) && InRange(r) && InRange(a) ==> Average(q, r, a, w) <= Largest(q, r, a))
      <==> w.quality >= 0.0 && w.relevance >= 0.0 && w.authority >= 0.0
  {
    hide Times, Average, Mass, Overrun, Backwards, Gained;
    BackwardsSign(w);
    OverrunTimes(100.0, w);
    if Backwards(w) == 0.0 {
      forall q, r, a | InRange(q) && InRange(r) && InRange(a)
        ensures Average(q, r, a, w) <= Largest(q, r, a)
      {
        AverageBelow(q, r, a, Largest(q, r, a), w);
        OverrunTimes(Largest(q, r, a), w);
      }
    } else {
      var q, r, a := Pick(100.0, w.quality), Pick(100.0, w.relevance), Pick(100.0, w.authority);
      AverageAttained(100.0, w);
      assert InRange(q) && InRange(r) && InRange(a) && Average(q, r, a, w) > Largest(q, r, a);
    }
  }

  /** The most the rounded score can gain on its largest part: backward weights at 99.99, and a reward for spam at 100. */
  function Overshoot(w: Weights): real
    requires Mass(w) > 0.0
  {
    Gained(99.99, w) + SpamReward(w)
  }

  lemma SpamGain(p: real, w: Weights)
    requires InRange(p)
    ensures -Penalty(p, w) <= SpamReward(w)
  {
    hide Times;
    Nothing(w.spam);
    Nothing(100.0);
    Opposite(p, w.spam);
    if w.spam >= 0.0 {
      Scaled(0.0, p, w.spam);
    } else {
      Scaled(p, 100.0, -w.spam);
    }
  }

  /** A score below 100 is at most 99.99. */
  lemma NextToFull(x: real)
    requires IsScore(x) && x < 100.0
    ensures x <= 99.99
  {
    var n := (x * 100.0).Floor;
    assert n as real < 10000.0;
    assert n <= 9999;
  }

  lemma NoScoreBetween(x: real, y: real)
    requires IsScore(x) && IsScore(y) && y < x + 0.01
    ensures y <= x
  {
    var m, n := (x * 100.0).Floor, (y * 100.0).Floor;
    assert n as real < m as real + 1.0;
    assert n <= m;
  }

  lemma ClampRisesLittle(top: real, raw: real)
    requires IsScore(top) && raw < top + 0.005
    ensures Clamp(raw) <= top
  {
    ClampLaws(raw, raw);
    ClampLaws(raw, 0.0);
    ClampLaws(top, raw);
    RoundsUp(raw);
    if raw > 0.0 {
      NoScoreBetween(top, Clamp(raw));
    } else {
      NothingIsNothing();
    }
    hide Clamp, IsScore;
  }

  lemma RoundsUp(raw: real)
    ensures raw > 0.0 ==> Clamp(raw) <= raw + 0.005
    ensures 0.0 <= raw <= 100.0 ==> Clamp(raw) >= raw - 0.005
  {
    RoundingLaws(raw, raw);
    hide Round2;
  }

  lemma CombinedBelow(q: real, r: real, p: real, a: real, w: Weights)
    requires Mass(w) > 0.0 && IsScore(q) && IsScore(r) && IsScore(p) && IsScore(a) && Overshoot(w) < 0.005
    ensures Combined(q, r, p, a, w) <= Largest(q, r, a)
  {
    var top := Largest(q, r, a);
    var raw := Average(q, r, a, w) - Penalty(p, w);
    assert IsScore(top);
    ClampLaws(raw, raw);
    AverageBelow(q, r, a, top, w);
    SpamGain(p, w);
    OverrunTimes(top, w);
    if top < 100.0 {
      NextToFull(top);
      GainBelow(top, w);
      hide Average, Penalty, Overrun, Overshoot, Clamp, Mass, Largest, Gained, SpamReward;
      ClampRisesLittle(top, raw);
    }
  }

  lemma GainBelow(top: real, w: Weights)
    requires Mass(w) > 0.0 && top <= 99.99
    ensures Gained(top, w) + SpamReward(w) <= Overshoot(w)
  {
    hide Times, Overrun, SpamReward;
    OverrunTimes(top, w);
    Scaled(top, 99.99, Overrun(w));
  }

  lemma HalfUpAtTheTop(raw: real)
    requires raw >= 99.995
    ensures Clamp(raw) == 100.0
  {
    assert RoundHalfEven(9999.5) == 10000;
    assert Round2(99.995) == 100.0;
    RoundingLaws(99.995, raw);
    hide Round2;
  }

  function Reward(w: Weights): real {
    if w.spam >= 0.0 then 0.0 else 100.0
  }

  lemma RewardTaken(w: Weights)
    ensures -Penalty(Reward(w), w) == SpamReward(w)
  {
    hide Times;
    Nothing(w.spam);
    Nothing(100.0);
    Opposite(100.0, w.spam);
  }

  lemma CombinedAbove(w: Weights) returns (q: real, r: real, p: real, a: real)
    requires Mass(w) > 0.0 && Overshoot(w) >= 0.005
    ensures IsScore(q) && IsScore(r) && IsScore(p) && IsScore(a) && Combined(q, r, p, a, w) > Largest(q, r, a)
  {
    q, r, a, p := Pick(99.99, w.quality), Pick(99.99, w.relevance), Pick(99.99, w.authority), Reward(w);
    assert IsScore(0.0) && IsScore(99.99) && IsScore(100.0);
    assert Largest(q, r, a) <= 99.99;
    AverageAttained(99.99, w);
    RewardTaken(w);
    hide Average, Penalty, Overrun, Clamp, Mass, Pick, Reward, Largest, IsScore, Gained, SpamReward;
    HalfUpAtTheTop(Average(q, r, a, w) - Penalty(p, w));
  }

  /**
   * The rounded opportunity score never exceeds its best positive component, for any component scores, if and
   * only if what negative weights can add is below half a hundredth.
   */
  lemma OpportunityStaysBelowExactlyWhen(w: Weights)
    requires Mass(w) > 0.0
    ensures
      (forall q, r, p, a :: IsScore(q) && IsScore(r) && IsScore(p) && IsScore(a) ==> Combined(q, r, p, a, w) <= Largest(q, r, a))
      <==> Overshoot(w) < 0.005
  {
    hide Combined, Largest, IsScore, Overshoot, Mass;
    if Overshoot(w) < 0.005 {
      forall q, r, p, a | IsScore(q) && IsScore(r) && IsScore(p) && IsScore(a)
        ensures Combined(q, r, p, a, w) <= Largest(q, r, a)
      {
        CombinedBelow(q, r, p, a, w);
      }
    } else {
      var q, r, p, a := CombinedAbove(w);
    }
  }

  /** The same four component weights; points and thresholds may differ. */
  predicate SameMix(v: Weights, w: Weights) {
    v.quality == w.quality && v.relevance == w.relevance && v.authority == w.authority && v.spam == w.spam
  }

  lemma MixCombines(q: real, r: real, p: real, a: real, v: Weights, w: Weights)
    requires Mass(w) > 0.0 && SameMix(v, w)
    ensures Mass(v) == Mass(w) && Combined(q, r, p, a, v) == Combined(q, r, p, a, w)
  {
    hide Times, Clamp;
    assert WeightedSum(q, r, a, v) == WeightedSum(q, r, a, w) && Mass(v) == Mass(w);
    SamePenalty(p, w, v);
    hide WeightedSum, Mass, Penalty;
    assert Average(q, r, a, v) == Average(q, r, a, w);
    hide Average;
  }

  ghost predicate StaysBelow(s: Signals, v: Weights) {
    Score(s, v).Ok?
    && var r := Score(s, v).value;
    r.opportunity <= Largest(r.quality, r.relevance, r.authority)
  }

  lemma MixBelow(s: Signals, v: Weights, w: Weights)
    requires Mass(w) > 0.0 && SameMix(v, w) && Overshoot(w) < 0.005
    ensures StaysBelow(s, v)
  {
    MixCombines(0.0, 0.0, 0.0, 0.0, v, w);
    ScoresAreInRange(s, v);
    var r := Score(s, v).value;
    assert r.opportunity == Combined(r.quality, r.relevance, r.spam, r.authority, v);
    hide Combined, Score, Largest, IsScore, Overshoot, Mass;
    MixCombines(r.quality, r.relevance, r.spam, r.authority, v, w);
    CombinedBelow(r.quality, r.relevance, r.spam, r.authority, w);
  }

  /** A site with one merit of each kind. */
  function Tuned(authority: real): Signals {
    Signals(true, None, false, false, false, false, false, 0, 0, true, false, false, Some(authority), None, [], Some(301))
  }

  /** Points under which it has any component scores one likes. */
  function Tuning(w: Weights, q: real, r: real, p: real): Weights {
    w.(reachable := q, category := r, maxKeyword := 0.0, outboundLinks := p)
  }

  lemma TunedPoints(q: real, r: real, p: real, a: real, w: Weights)
    ensures
      var s, v := Tuned(a), Tuning(w, q, r, p);
      QualityPoints(s, v) == q && RelevancePoints(s, v) == r && SpamPoints(s, v) == p && AuthorityPoints(s, v) == a
  {
    NoKeywords(Tuning(w, q, r, p));
    SignalsAdd(0, Tuning(w, q, r, p));
    hide KeywordPoints, SignalPoints;
  }

  lemma TunedScores(q: real, r: real, p: real, a: real, w: Weights)
    requires Mass(w) > 0.0 && IsScore(q) && IsScore(r) && IsScore(p) && IsScore(a)
    ensures
      var scored := Score(Tuned(a), Tuning(w, q, r, p));
      scored.Ok? && scored.value == Scores(q, r, p, a, Combined(q, r, p, a, w), Rejections(Tuned(a)))
  {
    var v := Tuning(w, q, r, p);
    TunedPoints(q, r, p, a, w);
    MixCombines(q, r, p, a, v, w);
    hide Times, QualityPoints, RelevancePoints, SpamPoints, AuthorityPoints, Average, Penalty, Clamp, IsScore, Mass, Rejections, Score, Tuning, Tuned;
    ScoredAs(Tuned(a), v, q, r, p, a, Average(q, r, a, v) - Penalty(p, v));
  }

  /**
   * With these four weights, and any points, no publisher's opportunity score exceeds its best positive component
   * if and only if what negative weights can add is below half a hundredth.
   */
  lemma MixStaysBelowExactlyWhen(w: Weights)
    requires Mass(w) > 0.0
    ensures (forall s, v :: SameMix(v, w) ==> StaysBelow(s, v)) <==> Overshoot(w) < 0.005
  {
    hide Combined, Largest, IsScore, Overshoot, Mass, Score, Rejections;
    if Overshoot(w) < 0.005 {
      hide StaysBelow;
      forall s, v | SameMix(v, w)
        ensures StaysBelow(s, v)
      {
        MixBelow(s, v, w);
      }
    } else {
      var q, r, p, a := CombinedAbove(w);
      TunedScores(q, r, p, a, w);
      assert SameMix(Tuning(w, q, r, p), w) && !StaysBelow(Tuned(a), Tuning(w, q, r, p));
    }
  }

  // ---------------------------------------------------------------- a publisher scored above all its parts

  const BARE := Signals(
    true, None, false, false, false, false, false, 0, 0, false, false, false, None, None, [], None)

  const LOPSIDED := DEFAULT_WEIGHTS.(quality := 2.0, relevance := -1.0, authority := 0.0)

  lemma BareAverage()
    ensures Mass(LOPSIDED) > 0.0 && Average(30.0, 0.0, 50.0, LOPSIDED) - Penalty(0.0, LOPSIDED) == 60.0
  {
    assert Mass(LOPSIDED) == 1.0;
    assert WeightedSum(30.0, 0.0, 50.0, LOPSIDED) == 60.0;
    assert Penalty(0.0, LOPSIDED) == 0.0;
    hide WeightedSum, Penalty, Mass;
  }

  lemma BarePoints(w: Weights)
    requires w.maxKeyword >= 0.0
    ensures QualityPoints(BARE, w) == w.reachable && RelevancePoints(BARE, w) == 0.0
    ensures SpamPoints(BARE, w) == 0.0 && AuthorityPoints(BARE, w) == w.defaultAuthority
  {
    NoKeywords(w);
    SignalsAdd(0, w);
    hide KeywordPoints, SignalPoints;
  }

  lemma BareParts()
    ensures IsScore(30.0) && IsScore(0.0) && IsScore(50.0) && IsScore(60.0) && Largest(30.0, 0.0, 50.0) == 50.0
  {
  }

  /** Stored weights may be negative: a reachable site with nothing else to show then scores above each of its parts. */
  lemma NegativeWeightExceedsComponents()
    ensures
      Score(BARE, LOPSIDED).Ok?
      && var r := Score(BARE, LOPSIDED).value;
      r.opportunity > Largest(r.quality, r.relevance, r.authority)
  {
    hide Score, Average, Penalty, Mass, Clamp, IsScore, Largest, QualityPoints, RelevancePoints, SpamPoints, AuthorityPoints, Rejections;
    BareParts();
    assert LOPSIDED.maxKeyword == 60.0 && LOPSIDED.reachable == 30.0 && LOPSIDED.defaultAuthority == 50.0;
    BarePoints(LOPSIDED);
    BareAverage();
    ScoredAs(BARE, LOPSIDED, 30.0, 0.0, 0.0, 50.0, 60.0);
    Exactly(60.0);
  }
}
