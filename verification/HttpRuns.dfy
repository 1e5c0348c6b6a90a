/** What every guarded request keeps, whatever the network answers: read off the log of its whole run. */
module HttpRuns {
  import opened Prelude
  import opened HttpClient

  // ---------------------------------------------------------------- reading a log

  function Sends(log: seq<Event>): nat {
    if log == [] then 0 else Sends(log[..|log| - 1]) + if log[|log| - 1].Sent? then 1 else 0
  }

  function Redirects(log: seq<Event>): nat {
    if log == [] then 0 else Redirects(log[..|log| - 1]) + if log[|log| - 1].Followed? then 1 else 0
  }

  /** Requests sent since the last redirect. */
  function Tries(log: seq<Event>): nat {
    if log == [] || log[|log| - 1].Followed? then 0
    else Tries(log[..|log| - 1]) + if log[|log| - 1].Sent? then 1 else 0
  }

  function TimeSlept(log: seq<Event>): real {
    if log == [] then 0.0 else TimeSlept(log[..|log| - 1]) + if log[|log| - 1].Slept? then log[|log| - 1].seconds else 0.0
  }

  /** Where the redirects so far lead. */
  function Target(first: Url, log: seq<Event>): Url {
    if log == [] then first
    else if log[|log| - 1].Followed? then log[|log| - 1].to
    else Target(first, log[..|log| - 1])
  }

  predicate WasRewritten(log: seq<Event>) {
    exists i :: 0 <= i < |log| && log[i].Followed? && Rewrites(log[i].status)
  }

  /** The URL that passed the safety check since the last redirect. */
  function Cleared(log: seq<Event>): Option<Url> {
    if log == [] || log[|log| - 1].Followed? then None
    else if log[|log| - 1].Checked? then Some(log[|log| - 1].url)
    else Cleared(log[..|log| - 1])
  }

  /** The request RFC 9110, section 15.4, leaves after these redirects. */
  function Expected(first: Request, log: seq<Event>): Request {
    if WasRewritten(log) && !IsHead(first.verb) then Request("GET", Target(first.url, log), NoBody)
    else first.(url := Target(first.url, log))
  }

  /** A sent request is the expected one, and its URL was found safe in its own hop. */
  ghost predicate SendIsSound(c: Call, first: Request, log: seq<Event>, i: nat) {
    i < |log| && log[i].Sent? ==>
      && log[i].request == Expected(first, log[..i])
      && Cleared(log[..i]) == Some(log[i].request.url)
      && SafetyError(c.cfg, c.world, log[i].request.url).None?
  }

  ghost predicate SendsAreSound(c: Call, first: Request, log: seq<Event>) {
    forall i: nat :: SendIsSound(c, first, log, i)
  }

  // ---------------------------------------------------------------- one more event

  lemma Appended(first: Url, log: seq<Event>, e: Event)
    ensures Sends(log + [e]) == Sends(log) + if e.Sent? then 1 else 0
    ensures Redirects(log + [e]) == Redirects(log) + if e.Followed? then 1 else 0
    ensures Tries(log + [e]) == if e.Followed? then 0 else Tries(log) + if e.Sent? then 1 else 0
    ensures TimeSlept(log + [e]) == TimeSlept(log) + if e.Slept? then e.seconds else 0.0
    ensures Target(first, log + [e]) == if e.Followed? then e.to else Target(first, log)
    ensures Cleared(log + [e]) == if e.Followed? then None else if e.Checked? then Some(e.url) else Cleared(log)
    ensures WasRewritten(log + [e]) <==> WasRewritten(log) || (e.Followed? && Rewrites(e.status))
  {
    assert (log + [e])[..|log|] == log;
    if WasRewritten(log) {
      var i :| 0 <= i < |log| && log[i].Followed? && Rewrites(log[i].status);
      assert (log + [e])[i] == log[i];
    }
    if e.Followed? && Rewrites(e.status) {
      assert (log + [e])[|log|] == e;
    }
    if WasRewritten(log + [e]) {
      var i :| 0 <= i < |log + [e]| && (log + [e])[i].Followed? && Rewrites((log + [e])[i].status);
      assert i < |log| ==> (log + [e])[i] == log[i];
    }
  }

  lemma SoundGrows(c: Call, first: Request, log: seq<Event>, e: Event)
    requires SendsAreSound(c, first, log)
    requires e.Sent? ==> e.request == Expected(first, log) && Cleared(log) == Some(e.request.url) && SafetyError(c.cfg, c.world, e.request.url).None?
    ensures SendsAreSound(c, first, log + [e])
  {
    hide Expected, Cleared, SafetyError;
    forall i: nat
      ensures SendIsSound(c, first, log + [e], i)
    {
      assert SendIsSound(c, first, log, i);
      if i <= |log| {
        assert (log + [e])[..i] == log[..i];
        assert log[..|log|] == log;
      }
    }
  }

  // ---------------------------------------------------------------- the invariant of a run

  ghost predicate FairJitter(w: World) {
    forall n: nat :: 0.0 <= w.jitter(n) < 1.0
  }

  /** How far a run may have got: tries per hop, hops, and time asleep. */
  ghost predicate Within(c: Call, st: State) {
    var allowed := if c.budget >= 0 then c.budget else 0;
    && Redirects(st.log) == st.redirects
    && (st.redirects > 0 ==> c.cfg.followRedirects && st.redirects <= c.cfg.maxRedirects)
    && Sends(st.log) <= st.redirects * (allowed + 1) + Tries(st.log)
    && (FairJitter(c.world) ==> TimeSlept(st.log) <= 30.0 * (st.redirects * allowed + Tries(st.log)) as real)
    && match st.phase
       case Enter => Tries(st.log) == 0
       case Try(attempt) => Tries(st.log) == attempt && attempt <= allowed
  }

  ghost predicate OnCourse(c: Call, first: Request, st: State) {
    && st.now == Expected(first, st.log)
    && SendsAreSound(c, first, st.log)
    && (st.phase.Try? ==> Cleared(st.log) == Some(st.now.url) && SafetyError(c.cfg, c.world, st.now.url).None?)
  }

  lemma BaseBounds(attempt: nat, retryAfter: Option<nat>)
    ensures 0.0 <= BackoffBase(attempt, retryAfter) <= 30.0
    ensures retryAfter.None? ==> BackoffBase(attempt, retryAfter) <= 8.0
  {
  }

  lemma JitterHalves(base: real, jitter: real)
    requires 0.0 <= base && 0.0 <= jitter < 1.0
    ensures base / 2.0 <= Jittered(base, jitter) <= base
  {
    assert 0.0 <= base * (jitter / 2.0) <= base * 0.5;
    assert base * (0.5 + jitter / 2.0) == base * 0.5 + base * (jitter / 2.0);
  }

  /** Every pause is between half its base delay and all of it: at most 30 seconds, 8 when the server named none. */
  lemma BackoffBounds(jitter: real, attempt: nat, retryAfter: Option<nat>)
    requires 0.0 <= jitter < 1.0
    ensures BackoffBase(attempt, retryAfter) / 2.0 <= Backoff(jitter, attempt, retryAfter) <= BackoffBase(attempt, retryAfter) <= 30.0
    ensures retryAfter.None? ==> Backoff(jitter, attempt, retryAfter) <= 8.0
    ensures Backoff(jitter, attempt, retryAfter) >= 0.0
  {
    BaseBounds(attempt, retryAfter);
    hide BackoffBase, Jittered;
    JitterHalves(BackoffBase(attempt, retryAfter), jitter);
  }

  lemma PauseStaysWithin(c: Call, st: State, attempt: nat, pause: real)
    requires Within(c, st) && st.phase == Try(attempt) && attempt < c.budget && (FairJitter(c.world) ==> pause <= 30.0)
    ensures
      Within(c, State(st.now, st.redirects, Try(attempt + 1), st.sent + 1, st.log + [Sent(st.now)] + [Slept(pause)]))
  {
    Appended("", st.log, Sent(st.now));
    Appended("", st.log + [Sent(st.now)], Slept(pause));
    hide Redirects, Sends, Tries, TimeSlept;
    assert Redirects(st.log + [Sent(st.now)] + [Slept(pause)]) == st.redirects;
    Later(st.redirects, c.budget, attempt);
  }

  lemma Later(redirects: nat, allowed: nat, tries: nat)
    ensures 30.0 * (redirects * allowed + tries) as real + 30.0 == 30.0 * (redirects * allowed + (tries + 1)) as real
    ensures tries <= allowed ==> redirects * (allowed + 1) + tries + 1 <= (redirects + 1) * (allowed + 1)
    ensures tries <= allowed ==> redirects * allowed + tries <= (redirects + 1) * allowed
  {
  }

  lemma FollowStaysWithin(c: Call, st: State, attempt: nat, status: int, next: Request)
    requires Within(c, st) && st.phase == Try(attempt) && attempt <= c.budget
    requires c.cfg.followRedirects && st.redirects < c.cfg.maxRedirects
    ensures
      Within(c, State(next, st.redirects + 1, Enter, st.sent + 1, st.log + [Sent(st.now)] + [Followed(status, next.url)]))
  {
    Appended("", st.log, Sent(st.now));
    Appended("", st.log + [Sent(st.now)], Followed(status, next.url));
    hide Redirects, Sends, Tries, TimeSlept;
    Later(st.redirects, c.budget, attempt);
  }

  lemma WithinStep(c: Call, st: State)
    requires Within(c, st) && Step(c, st).Again?
    ensures Within(c, Step(c, st).st)
  {
    hide Received, SafetyError, IsRetryable, Backoff, Within;
    match st.phase {
      case Enter => EnterStaysWithin(c, st);
      case Try(attempt) =>
        var r := Received(c.world.reply(st.sent), c.cap);
        var after := Step(c, st).st;
        if after.phase.Enter? {
          FollowStaysWithin(c, st, attempt, r.value.status, after.now);
        } else {
          var wanted := if r.Ok? then r.value.headers.retryAfter else None;
          if FairJitter(c.world) {
            BackoffBounds(c.world.jitter(st.sent + 1), attempt, wanted);
          }
          PauseStaysWithin(c, st, attempt, Backoff(c.world.jitter(st.sent + 1), attempt, wanted));
        }
    }
  }

  lemma EnterStaysWithin(c: Call, st: State)
    requires Within(c, st) && st.phase.Enter?
    ensures Within(c, Note(st, Checked(st.now.url)).(phase := Try(0)))
  {
    Appended("", st.log, Checked(st.now.url));
  }

  /** An event that neither checks, sends nor redirects leaves a run on course. */
  lemma CourseRests(c: Call, first: Request, log: seq<Event>, e: Event)
    requires SendsAreSound(c, first, log) && (e.Slept? || (e.Sent? && e.request == Expected(first, log)
             && Cleared(log) == Some(e.request.url) && SafetyError(c.cfg, c.world, e.request.url).None?))
    ensures SendsAreSound(c, first, log + [e])
    ensures Expected(first, log + [e]) == Expected(first, log) && Cleared(log + [e]) == Cleared(log)
  {
    SoundGrows(c, first, log, e);
    Appended(first.url, log, e);
    hide WasRewritten, Target, Cleared, SafetyError, IsHead;
  }

  lemma CourseFollows(first: Request, log: seq<Event>, status: int, to: Url)
    ensures Expected(first, log + [Followed(status, to)]) == Rewritten(Expected(first, log), status, to)
  {
    Appended(first.url, log, Followed(status, to));
    hide WasRewritten, Target, Rewrites, IsHead;
    assert IsHead(first.verb) ==> Expected(first, log).verb == first.verb;
    GetIsNotHead();
  }

  lemma GetIsNotHead()
    ensures !IsHead("GET")
  {
  }

  lemma CourseStep(c: Call, first: Request, st: State)
    requires OnCourse(c, first, st) && Step(c, st).Again?
    ensures OnCourse(c, first, Step(c, st).st)
  {
    match st.phase {
      case Enter =>
        Appended(first.url, st.log, Checked(st.now.url));
        SoundGrows(c, first, st.log, Checked(st.now.url));
      case Try(attempt) =>
        var log := st.log + [Sent(st.now)];
        var after := Step(c, st).st;
        CourseRests(c, first, st.log, Sent(st.now));
        if after.phase.Enter? {
          var status := Received(c.world.reply(st.sent), c.cap).value.status;
          assert after.log == log + [Followed(status, after.now.url)];
          SoundGrows(c, first, log, Followed(status, after.now.url));
          CourseFollows(first, log, status, after.now.url);
        } else {
          CourseRests(c, first, log, after.log[|log|]);
          assert after.log == log + [after.log[|log|]];
        }
        hide Received, SafetyError, IsRetryable, Backoff, IsHead, Rewrites, Expected, Cleared, SendsAreSound;
    }
  }

  // ---------------------------------------------------------------- the whole run

  /** The state when the last step was taken, and that step is the last. */
  ghost predicate LastStep(c: Call, last: State, end: State, r: Result<Response, Error>) {
    Step(c, last) == Done(end, r)
  }

  /** A run ends in one last step from a state that keeps every invariant. */
  lemma {:induction false} RunEnds(c: Call, first: Request, st: State) returns (last: State)
    requires Within(c, st) && OnCourse(c, first, st)
    ensures Within(c, last) && OnCourse(c, first, last)
    ensures LastStep(c, last, Fetch(c, st).0, Fetch(c, st).1)
    decreases RedirectsLeft(c, st), TriesLeft(c, st)
  {
    Unfold(c, st);
    if Step(c, st).Again? {
      WithinStep(c, st);
      CourseStep(c, first, st);
      StepShrinks(c, st);
      hide Step, Within, OnCourse;
      last := RunEnds(c, first, Step(c, st).st);
    } else {
      last := st;
    }
  }

  lemma StepShrinks(c: Call, st: State)
    requires Step(c, st).Again?
    ensures
      var st' := Step(c, st).st;
      RedirectsLeft(c, st') < RedirectsLeft(c, st)
      || (RedirectsLeft(c, st') == RedirectsLeft(c, st) && TriesLeft(c, st') < TriesLeft(c, st))
  {
    hide Received, SafetyError, IsRetryable, Backoff;
  }

  lemma BeginsWell(c: Call, first: Request, sent: nat)
    ensures Within(c, Begin(first, sent)) && OnCourse(c, first, Begin(first, sent))
  {
  }

  function Allowed(n: int): nat {
    if n >= 0 then n else 0
  }

  /**
   * Every request ends within (budget + 1) * (max redirects + 1) sends and that many pauses of at most
   * 30 seconds each hop; with redirects switched off, within one hop.
   */
  lemma EffortIsBounded(c: Call, first: Request, sent: nat)
    ensures
      var log := Fetch(c, Begin(first, sent)).0.log;
      var hops := if c.cfg.followRedirects then Allowed(c.cfg.maxRedirects) + 1 else 1;
      && Redirects(log) < hops
      && Sends(log) <= (Allowed(c.budget) + 1) * hops
      && (FairJitter(c.world) ==> TimeSlept(log) <= 30.0 * (Allowed(c.budget) * hops) as real)
  {
    BeginsWell(c, first, sent);
    var last := RunEnds(c, first, Begin(first, sent));
    LastStepBounds(c, last);
  }

  lemma LastStepBounds(c: Call, last: State)
    requires Within(c, last) && Step(c, last).Done?
    ensures
      var log := Step(c, last).end.log;
      var hops := if c.cfg.followRedirects then Allowed(c.cfg.maxRedirects) + 1 else 1;
      && Redirects(log) < hops
      && Sends(log) <= (Allowed(c.budget) + 1) * hops
      && (FairJitter(c.world) ==> TimeSlept(log) <= 30.0 * (Allowed(c.budget) * hops) as real)
  {
    hide Redirects, Sends, Tries, TimeSlept, FairJitter, SafetyError;
    LastLog(c, last);
    var log := Step(c, last).end.log;
    var hops := if c.cfg.followRedirects then Allowed(c.cfg.maxRedirects) + 1 else 1;
    Hops(last.redirects, hops, Allowed(c.budget), Tries(last.log));
    hide Step;
    AtMost30(last.redirects * Allowed(c.budget) + Tries(last.log), Allowed(c.budget) * hops);
  }

  lemma AtMost30(a: nat, b: nat)
    requires a <= b
    ensures 30.0 * a as real <= 30.0 * b as real
  {
  }

  /** The last step sends at most once more, and neither sleeps nor redirects. */
  lemma LastLog(c: Call, last: State)
    requires Step(c, last).Done?
    ensures
      var log := Step(c, last).end.log;
      Redirects(log) == Redirects(last.log) && Sends(log) <= Sends(last.log) + 1 && TimeSlept(log) == TimeSlept(last.log)
  {
    hide Received, SafetyError, IsRetryable, Backoff, Redirects, Sends, TimeSlept, Onward;
    Appended("", last.log, Sent(last.now));
  }

  lemma Hops(redirects: nat, hops: nat, allowed: nat, tries: nat)
    requires redirects < hops && tries <= allowed
    ensures redirects * (allowed + 1) + tries + 1 <= (allowed + 1) * hops
    ensures redirects * allowed + tries <= allowed * hops
  {
    assert (redirects + 1) * (allowed + 1) <= hops * (allowed + 1);
    assert (redirects + 1) * allowed <= hops * allowed;
  }

  /**
   * Every request sent carries the caller's method and body exactly when no earlier 301, 302 or 303 rewrote
   * them, follows the redirects so far, and had its URL found safe in its own hop.
   */
  lemma EverySendIsSound(c: Call, first: Request, sent: nat, i: nat)
    ensures SendIsSound(c, first, Fetch(c, Begin(first, sent)).0.log, i)
  {
    BeginsWell(c, first, sent);
    var last := RunEnds(c, first, Begin(first, sent));
    hide Received, IsRetryable, Backoff;
    SoundGrows(c, first, last.log, Checked(last.now.url));
    if last.phase.Try? {
      SoundGrows(c, first, last.log, Sent(last.now));
    }
  }

  /** The loop's `else` arm is reached exactly when the retry budget is negative (and the URL is safe). */
  lemma NoResponseExactlyWhen(c: Call, first: Request, sent: nat)
    ensures Fetch(c, Begin(first, sent)).1 == Err(NoResponse)
       <==> c.budget < 0 && SafetyError(c.cfg, c.world, first.url).None?
  {
    BeginsWell(c, first, sent);
    var last := RunEnds(c, first, Begin(first, sent));
    hide Received, IsRetryable, Backoff, SafetyError;
    if c.budget < 0 {
      Unfold(c, Begin(first, sent));
      if SafetyError(c.cfg, c.world, first.url).None? {
        Unfold(c, Step(c, Begin(first, sent)).st);
      }
    }
  }

  /** How a request can end: the reply it ends with, and what had to be true for it to be the last. */
  ghost predicate Explained(c: Call, end: State, r: Result<Response, Error>) {
    && end.sent > 0
    && var reply := Received(c.world.reply(end.sent - 1), c.cap);
    match r
    case Ok(response) =>
      && reply == r
      && (IsRetryable(response.status) ==> Tries(end.log) == c.budget + 1)
      && (IsRedirect(response.status) ==>
            !c.cfg.followRedirects || response.headers.location.None? || response.headers.location.value == "")
    case Err(e) =>
      match e
      case Timeout => reply == r && Tries(end.log) == c.budget + 1
      case Unavailable => reply == r && Tries(end.log) == c.budget + 1
      case TooLarge => reply == r
      case Undecodable => reply == r
      case TooManyRedirects => reply.Ok? && IsRedirect(reply.value.status) && Redirects(end.log) == Allowed(c.cfg.maxRedirects)
      case BadLocation => reply.Ok? && IsRedirect(reply.value.status)
      case _ => false
  }

  lemma ExchangeErrors(w: Wire, cap: int)
    ensures Received(w, cap).Err? ==> Received(w, cap).error in {Timeout, Unavailable, TooLarge, Undecodable}
  {
  }

  lemma LastTryExplains(c: Call, last: State)
    requires Within(c, last) && last.phase.Try? && c.budget >= 0 && Step(c, last).Done?
    ensures Explained(c, Step(c, last).end, Step(c, last).result)
    ensures Step(c, last).end.log == last.log + [Sent(last.now)]
  {
    ExchangeErrors(c.world.reply(last.sent), c.cap);
    Appended("", last.log, Sent(last.now));
    hide Received, IsRetryable, Backoff, IsRedirect, Sends, Redirects, Tries, TimeSlept;
  }

  /** With a budget of at least zero, a request ends unsafe, or explained by the last reply it received. */
  lemma ResultIsExplained(c: Call, first: Request, sent: nat)
    requires c.budget >= 0
    ensures
      var (end, r) := Fetch(c, Begin(first, sent));
      var url := Target(first.url, end.log);
      if SafetyError(c.cfg, c.world, url).Some? then r == Err(SafetyError(c.cfg, c.world, url).value)
      else Explained(c, end, r)
  {
    BeginsWell(c, first, sent);
    var last := RunEnds(c, first, Begin(first, sent));
    Appended(first.url, last.log, Sent(last.now));
    if last.phase.Try? {
      LastTryExplains(c, last);
    }
    hide Explained, AfterReply, SafetyError, Fetch, Within;
  }

  // ---------------------------------------------------------------- the bound is reached

  /** The place of the n-th request among its hop's `width` tries. */
  function Place(n: nat, width: nat): nat {
    if n == 0 || Place(n - 1, width) + 1 == width then 0 else Place(n - 1, width) + 1
  }

  /** A server that redirects, but only on the last try of each hop. */
  function Grudging(width: nat): World {
    World(
      (n: nat) => Answer(if Place(n, width) + 1 == width then 302 else 503, Headers(Some("/next"), None), None, [], Complete),
      _ => 0.0,
      (_, to) => Some(to),
      _ => Parts("https", Some("host.example")),
      _ => true)
  }

  /** The sends of `hops` hops that use every try. */
  function Full(c: Call, hops: int): int {
    hops * (c.budget + 1)
  }

  ghost predicate Grudged(c: Call, st: State) {
    && c.budget >= 0 && c.cap >= 0 && c.cfg.followRedirects && c.cfg.maxRedirects >= 0
    && c.world == Grudging(c.budget + 1)
    && st.phase.Try? && st.phase.attempt <= c.budget && st.redirects <= c.cfg.maxRedirects
    && Place(st.sent, c.budget + 1) == st.phase.attempt
    && Sends(st.log) == Full(c, st.redirects) + st.phase.attempt
  }

  lemma GrudgingReply(c: Call, st: State)
    requires Grudged(c, st)
    ensures
      var status := if st.phase.attempt == c.budget then 302 else 503;
      Received(c.world.reply(st.sent), c.cap) == Ok(Response(status, Headers(Some("/next"), None), []))
    ensures c.world.join(st.now.url, "/next") == Some("/next")
    ensures forall url :: SafetyError(c.cfg, c.world, url).None?
  {
  }

  lemma NextHopStarts(c: Call, hop: nat)
    ensures Full(c, hop) + c.budget + 1 == Full(c, hop + 1)
  {
  }

  lemma GrudgingPause(c: Call, st: State) returns (next: State)
    requires Grudged(c, st) && st.phase.attempt < c.budget
    ensures Grudged(c, next) && Fetch(c, st) == Fetch(c, next)
    ensures next.redirects == st.redirects && next.phase.attempt == st.phase.attempt + 1
  {
    hide Received, Backoff, Fetch, Sends, Grudging, Full, Place;
    GrudgingReply(c, st);
    TriesAgain(c, st, st.phase.attempt, Received(c.world.reply(st.sent), c.cap));
    var pause := Slept(Backoff(c.world.jitter(st.sent + 1), st.phase.attempt, None));
    next := State(st.now, st.redirects, Try(st.phase.attempt + 1), st.sent + 1, st.log + [Sent(st.now)] + [pause]);
    PauseCounts(st.log, st.now, pause);
    PlaceNext(st.sent, c.budget + 1);
  }

  lemma PauseCounts(log: seq<Event>, r: Request, pause: Event)
    requires pause.Slept?
    ensures Sends(log + [Sent(r)] + [pause]) == Sends(log) + 1
  {
    hide Sends;
    Appended("", log, Sent(r));
    Appended("", log + [Sent(r)], pause);
  }

  lemma GrudgingHop(c: Call, st: State, to: Request) returns (next: State)
    requires Grudged(c, st) && st.phase.attempt == c.budget && st.redirects < c.cfg.maxRedirects
    requires to == Rewritten(st.now, 302, "/next")
    ensures next == State(to, st.redirects + 1, Try(0), st.sent + 1, st.log + [Sent(st.now)] + [Followed(302, "/next")] + [Checked("/next")])
    ensures Fetch(c, st) == Fetch(c, next)
  {
    GrudgingReply(c, st);
    var r := Received(c.world.reply(st.sent), c.cap);
    Answers(c, st, c.budget, r);
    assert to.url == "/next";
    assert Onward(c, st.now, st.redirects, r.value) == Ok(Some(to));
    hide Received, Fetch, Sends, Place, Grudging, Full, Onward, Rewritten;
    var there := State(to, st.redirects + 1, Enter, st.sent + 1, st.log + [Sent(st.now)] + [Followed(302, "/next")]);
    assert SafetyError(c.cfg, c.world, "/next").None?;
    hide SafetyError;
    next := there.(phase := Try(0), log := there.log + [Checked("/next")]);
    assert Step(c, there) == Again(next);
    Unfold(c, there);
  }

  lemma MoveCounts(log: seq<Event>, r: Request, status: int, to: Url)
    ensures Sends(log + [Sent(r)] + [Followed(status, to)] + [Checked(to)]) == Sends(log) + 1
  {
    hide Sends;
    Appended("", log, Sent(r));
    Appended("", log + [Sent(r)], Followed(status, to));
    Appended("", log + [Sent(r)] + [Followed(status, to)], Checked(to));
  }

  lemma PlaceNext(n: nat, width: nat)
    ensures Place(n + 1, width) == if Place(n, width) + 1 == width then 0 else Place(n, width) + 1
  {
  }

  lemma GrudgingMove(c: Call, st: State) returns (next: State)
    requires Grudged(c, st) && st.phase.attempt == c.budget && st.redirects < c.cfg.maxRedirects
    ensures Grudged(c, next) && Fetch(c, st) == Fetch(c, next) && next.redirects == st.redirects + 1
  {
    hide Fetch, Sends, Place, Grudging, Full, Rewritten;
    next := GrudgingHop(c, st, Rewritten(st.now, 302, "/next"));
    MoveCounts(st.log, st.now, 302, "/next");
    PlaceNext(st.sent, c.budget + 1);
    NextHopStarts(c, st.redirects);
  }

  lemma GrudgingEnd(c: Call, st: State)
    requires Grudged(c, st) && st.phase.attempt == c.budget && st.redirects == c.cfg.maxRedirects
    ensures Sends(Fetch(c, st).0.log) == Full(c, c.cfg.maxRedirects + 1)
  {
    GrudgingReply(c, st);
    var r := Received(c.world.reply(st.sent), c.cap);
    Answers(c, st, c.budget, r);
    assert Onward(c, st.now, st.redirects, r.value) == Err(TooManyRedirects);
    hide Received, Fetch, Sends, Grudging, Full, Onward;
    Appended("", st.log, Sent(st.now));
    NextHopStarts(c, st.redirects);
  }

  lemma {:induction false} GrudgingRun(c: Call, st: State)
    requires Grudged(c, st)
    ensures Sends(Fetch(c, st).0.log) == Full(c, c.cfg.maxRedirects + 1)
    decreases c.cfg.maxRedirects - st.redirects, c.budget - st.phase.attempt
  {
    hide Fetch, Sends, Place, Full;
    if st.phase.attempt < c.budget {
      var next := GrudgingPause(c, st);
      GrudgingRun(c, next);
    } else if st.redirects < c.cfg.maxRedirects {
      var next := GrudgingMove(c, st);
      GrudgingRun(c, next);
    } else {
      GrudgingEnd(c, st);
    }
  }

  lemma GrudgingBegins(c: Call, first: Request, ready: State)
    requires c.budget >= 0 && c.cap >= 0 && c.cfg.followRedirects && c.cfg.maxRedirects >= 0
    requires c.world == Grudging(c.budget + 1) && ready == State(first, 0, Try(0), 0, [Checked(first.url)])
    ensures Grudged(c, ready) && Fetch(c, Begin(first, 0)) == Fetch(c, ready)
  {
    Appended("", [], Checked(first.url));
    assert [] + [Checked(first.url)] == [Checked(first.url)];
    assert SafetyError(c.cfg, c.world, first.url).None?;
    Unfold(c, Begin(first, 0));
    hide Fetch, Sends, Grudging, SafetyError;
    assert Step(c, Begin(first, 0)) == Again(ready);
  }

  /** For every budget and redirect limit there is a server that makes a request use every send it is allowed. */
  lemma SendBoundIsAttained(c: Call, first: Request)
    requires c.budget >= 0 && c.cap >= 0 && c.cfg.followRedirects && c.cfg.maxRedirects >= 0
    requires c.world == Grudging(c.budget + 1)
    ensures Sends(Fetch(c, Begin(first, 0)).0.log) == (c.budget + 1) * (c.cfg.maxRedirects + 1)
  {
    hide Fetch, Sends, Grudged, Grudging, Begin;
    var ready := State(first, 0, Try(0), 0, [Checked(first.url)]);
    GrudgingBegins(c, first, ready);
    GrudgingRun(c, ready);
  }
}
