/**
 * The log of a guarded request, event by event: what each check, send, pause and redirect had to be earned by,
 * stated on URLs, replies and settings. A request never reaches a host that may not be contacted.
 */
module HttpLaws {
  import opened Prelude
  import opened HttpClient
  import opened HttpRuns

  // ---------------------------------------------------------------- what may be contacted

  /** The reason a URL may not be fetched, the first that applies. */
  function Objection(c: Call, url: Url): Option<Error> {
    var parts := c.world.split(url);
    if parts.scheme == "http" || parts.scheme == "https" then
      if parts.host.Some? && parts.host.value != "" then
        if c.cfg.enforcePublicHosts ==> c.world.isPublic(parts.host.value) then None else Some(BlockedHost)
      else Some(MissingHost)
    else Some(InvalidScheme)
  }

  lemma ObjectionIsSafety(c: Call, url: Url)
    ensures SafetyError(c.cfg, c.world, url) == Objection(c, url)
  {
  }

  /**
   * Whatever the servers answer, every request sent goes to an http or https URL with a host, and to a public one
   * if the client is told to insist; redirect targets are no exception.
   */
  lemma OnlyAllowedHostsAreContacted(c: Call, first: Request, sent: nat, i: nat)
    ensures
      var log := Fetch(c, Begin(first, sent)).0.log;
      i < |log| && log[i].Sent? ==>
        var parts := c.world.split(log[i].request.url);
        (parts.scheme == "http" || parts.scheme == "https")
        && parts.host.Some? && parts.host.value != ""
        && (c.cfg.enforcePublicHosts ==> c.world.isPublic(parts.host.value))
  {
    EverySendIsSound(c, first, sent, i);
    hide Fetch, Expected, Cleared;
  }

  /** A request for a URL that may not be fetched sends nothing, and says why: scheme first, then host, then address. */
  lemma UnsafeRequestIsNeverSent(c: Call, first: Request, sent: nat)
    ensures
      var (end, r) := Fetch(c, Begin(first, sent));
      var parts := c.world.split(first.url);
      var badScheme := parts.scheme != "http" && parts.scheme != "https";
      var noHost := parts.host.None? || parts.host.value == "";
      (badScheme ==> r == Err(InvalidScheme) && end.log == [] && end.sent == sent)
      && (!badScheme && noHost ==> r == Err(MissingHost) && end.log == [] && end.sent == sent)
      && (!badScheme && !noHost && c.cfg.enforcePublicHosts && !c.world.isPublic(parts.host.value) ==>
            r == Err(BlockedHost) && end.log == [] && end.sent == sent)
  {
    Unfold(c, Begin(first, sent));
    hide Fetch;
  }

  // ---------------------------------------------------------------- what the wire said

  predicate Fits(w: Wire, cap: int)
    requires w.Answer?
  {
    (w.declared.None? || w.declared.value <= cap) && (w.chunks == [] || |Concat(w.chunks)| <= cap)
  }

  /** A reply worth another try. */
  predicate Transient(w: Wire, cap: int) {
    w.Silent? || w.Refused?
    || (Fits(w, cap)
        && (w.ending == StalledOut || w.ending == Dropped
            || (w.ending == Complete && w.status in {408, 425, 429, 500, 502, 503, 504})))
  }

  /** A whole answer that fits. */
  predicate Whole(w: Wire, cap: int) {
    w.Answer? && Fits(w, cap) && w.ending == Complete
  }

  function Capped(delay: real, most: real): real {
    if delay > most then most else delay
  }

  /** What the server asked for, up to 30 seconds; else a quarter second doubled every try, up to 8. */
  function BaseDelay(w: Wire, cap: int, tries: nat): real {
    if Whole(w, cap) && w.headers.retryAfter.Some? then Capped(w.headers.retryAfter.value as real, 30.0)
    else Capped(Pow2(tries) as real / 4.0, 8.0)
  }

  /** Jitter takes up to half of the base delay away. */
  function Pause(w: Wire, cap: int, tries: nat, jitter: real): real {
    BaseDelay(w, cap, tries) * (0.5 + jitter / 2.0)
  }

  /** The reply to the last of the sends in this log. */
  function LastReply(c: Call, sent: nat, log: seq<Event>): Wire
    requires Sends(log) > 0
  {
    c.world.reply(sent + Sends(log) - 1)
  }

  // ---------------------------------------------------------------- what each event is earned by

  ghost predicate Earned(c: Call, first: Request, sent: nat, log: seq<Event>, e: Event) {
    match e
    case Checked(url) =>
      Objection(c, url).None?
      && if log == [] then url == first.url else log[|log| - 1].Followed? && log[|log| - 1].to == url
    case Sent(r) =>
      log != [] && (log[|log| - 1] == Checked(r.url) || log[|log| - 1].Slept?) && Tries(log) <= c.budget
    case Slept(seconds) =>
      log != [] && log[|log| - 1].Sent? && 0 < Sends(log) && 0 < Tries(log) <= c.budget
      && Transient(LastReply(c, sent, log), c.cap)
      && seconds == Pause(LastReply(c, sent, log), c.cap, Tries(log) - 1, c.world.jitter(sent + Sends(log)))
    case Followed(status, to) =>
      log != [] && log[|log| - 1].Sent? && 0 < Sends(log)
      && var w := LastReply(c, sent, log);
         Whole(w, c.cap) && w.status == status && 300 <= status < 400
         && c.cfg.followRedirects && Redirects(log) < c.cfg.maxRedirects
         && w.headers.location.Some? && w.headers.location.value != ""
         && c.world.join(log[|log| - 1].request.url, w.headers.location.value) == Some(to)
  }

  ghost predicate AllEarned(c: Call, first: Request, sent: nat, log: seq<Event>) {
    forall i: nat :: i < |log| ==> Earned(c, first, sent, log[..i], log[i])
  }

  lemma OneMore(c: Call, first: Request, sent: nat, log: seq<Event>, e: Event)
    requires AllEarned(c, first, sent, log) && Earned(c, first, sent, log, e)
    ensures AllEarned(c, first, sent, log + [e])
  {
    hide Earned;
    forall i: nat | i < |log + [e]|
      ensures Earned(c, first, sent, (log + [e])[..i], (log + [e])[i])
    {
      assert (log + [e])[..i] == log[..i];
      assert log[..|log|] == log;
    }
  }

  /** The state a run of this log is in. */
  ghost predicate Linked(c: Call, first: Request, sent: nat, st: State) {
    st.sent == sent + Sends(st.log) && Redirects(st.log) == st.redirects
    && match st.phase
       case Enter =>
         Tries(st.log) == 0
         && if st.log == [] then st.now.url == first.url else st.log[|st.log| - 1].Followed? && st.log[|st.log| - 1].to == st.now.url
       case Try(attempt) =>
         Tries(st.log) == attempt && st.log != []
         && (st.log[|st.log| - 1] == Checked(st.now.url) || st.log[|st.log| - 1].Slept?)
  }

  lemma WireSays(w: Wire, cap: int)
    ensures Received(w, cap).Ok? <==> Whole(w, cap)
    ensures Received(w, cap).Ok? ==> Received(w, cap).value == Response(w.status, w.headers, Concat(w.chunks))
    ensures Received(w, cap) == Err(TooLarge) <==> w.Answer? && !Fits(w, cap)
    ensures Received(w, cap) == Err(Timeout) <==> w.Silent? || (w.Answer? && Fits(w, cap) && w.ending == StalledOut)
    ensures Received(w, cap) == Err(Unavailable) <==> w.Refused? || (w.Answer? && Fits(w, cap) && w.ending == Dropped)
    ensures Received(w, cap) == Err(Undecodable) <==> w.Answer? && Fits(w, cap) && w.ending == Garbled
    ensures Transient(w, cap)
       <==> (Received(w, cap) == Err(Timeout) || Received(w, cap) == Err(Unavailable)
             || (Received(w, cap).Ok? && IsRetryable(Received(w, cap).value.status)))
  {
    hide Concat;
  }

  lemma PauseIs(w: Wire, cap: int, jitter: real, attempt: nat)
    ensures
      var r := Received(w, cap);
      Backoff(jitter, attempt, if r.Ok? then r.value.headers.retryAfter else None) == Pause(w, cap, attempt, jitter)
  {
    WireSays(w, cap);
    hide Received, Whole, Pow2;
    assert BackoffBase(attempt, if Received(w, cap).Ok? then Received(w, cap).value.headers.retryAfter else None) == BaseDelay(w, cap, attempt);
  }

  lemma LinkedEnter(c: Call, first: Request, sent: nat, st: State)
    requires st.phase.Enter? && Linked(c, first, sent, st) && AllEarned(c, first, sent, st.log) && Step(c, st).Again?
    ensures Linked(c, first, sent, Step(c, st).st) && AllEarned(c, first, sent, Step(c, st).st.log)
  {
    ObjectionIsSafety(c, st.now.url);
    Appended("", st.log, Checked(st.now.url));
    hide AllEarned, SafetyError, Objection, Sends, Redirects, Tries;
    OneMore(c, first, sent, st.log, Checked(st.now.url));
  }

  lemma LinkedSend(c: Call, first: Request, sent: nat, st: State)
    requires st.phase.Try? && st.phase.attempt <= c.budget && Linked(c, first, sent, st) && AllEarned(c, first, sent, st.log)
    ensures
      var log := st.log + [Sent(st.now)];
      AllEarned(c, first, sent, log) && Sends(log) == Sends(st.log) + 1 && Tries(log) == st.phase.attempt + 1
      && Redirects(log) == st.redirects && LastReply(c, sent, log) == c.world.reply(st.sent)
  {
    Appended("", st.log, Sent(st.now));
    hide AllEarned, Sends, Redirects, Tries;
    OneMore(c, first, sent, st.log, Sent(st.now));
  }

  lemma LinkedPause(c: Call, first: Request, sent: nat, st: State, log: seq<Event>, pause: real)
    requires st.phase.Try? && st.phase.attempt < c.budget && Linked(c, first, sent, st) && AllEarned(c, first, sent, log)
    requires log == st.log + [Sent(st.now)] && Sends(log) == Sends(st.log) + 1 && Tries(log) == st.phase.attempt + 1 && Redirects(log) == st.redirects
    requires Transient(LastReply(c, sent, log), c.cap)
    requires pause == Pause(LastReply(c, sent, log), c.cap, st.phase.attempt, c.world.jitter(st.sent + 1))
    ensures AllEarned(c, first, sent, log + [Slept(pause)])
    ensures Linked(c, first, sent, State(st.now, st.redirects, Try(st.phase.attempt + 1), st.sent + 1, log + [Slept(pause)]))
  {
    Appended("", log, Slept(pause));
    hide AllEarned, Sends, Redirects, Tries, Transient, Pause;
    OneMore(c, first, sent, log, Slept(pause));
  }

  lemma FollowIsEarned(c: Call, first: Request, sent: nat, log: seq<Event>, now: Request, redirects: nat, next: Request)
    requires log != [] && log[|log| - 1] == Sent(now) && 0 < Sends(log) && Redirects(log) == redirects
    requires Received(LastReply(c, sent, log), c.cap).Ok?
    requires Onward(c, now, redirects, Received(LastReply(c, sent, log), c.cap).value) == Ok(Some(next))
    ensures Earned(c, first, sent, log, Followed(Received(LastReply(c, sent, log), c.cap).value.status, next.url))
  {
    WireSays(LastReply(c, sent, log), c.cap);
    hide Sends, Redirects, Tries, Received, Whole, Concat, Transient, BaseDelay, Objection;
  }

  lemma LinkedFollow(c: Call, first: Request, sent: nat, st: State, log: seq<Event>, status: int, next: Request)
    requires st.phase.Try? && Linked(c, first, sent, st) && AllEarned(c, first, sent, log)
    requires Sends(log) == Sends(st.log) + 1 && Redirects(log) == st.redirects
    requires Earned(c, first, sent, log, Followed(status, next.url))
    ensures AllEarned(c, first, sent, log + [Followed(status, next.url)])
    ensures Linked(c, first, sent, State(next, st.redirects + 1, Enter, st.sent + 1, log + [Followed(status, next.url)]))
  {
    hide AllEarned, Earned, Sends, Redirects, Tries;
    Appended("", log, Followed(status, next.url));
    OneMore(c, first, sent, log, Followed(status, next.url));
  }

  /** A try that is not the last pauses after a transient reply, or follows the answer onward. */
  lemma TryGoesOn(c: Call, st: State)
    requires st.phase.Try? && Step(c, st).Again?
    ensures st.phase.attempt <= c.budget
    ensures
      var w, log, after := c.world.reply(st.sent), st.log + [Sent(st.now)], Step(c, st).st;
      if after.phase.Enter? then
        Received(w, c.cap).Ok? && Onward(c, st.now, st.redirects, Received(w, c.cap).value) == Ok(Some(after.now))
        && after == State(after.now, st.redirects + 1, Enter, st.sent + 1, log + [Followed(Received(w, c.cap).value.status, after.now.url)])
      else
        var pause := Pause(w, c.cap, st.phase.attempt, c.world.jitter(st.sent + 1));
        Transient(w, c.cap) && st.phase.attempt < c.budget
        && after == State(st.now, st.redirects, Try(st.phase.attempt + 1), st.sent + 1, log + [Slept(pause)])
  {
    hide Received, IsRetryable, Backoff, Onward, Transient, Pause, Whole, Fits;
    var w := c.world.reply(st.sent);
    WireSays(w, c.cap);
    PauseIs(w, c.cap, c.world.jitter(st.sent + 1), st.phase.attempt);
  }

  lemma LinkedTry(c: Call, first: Request, sent: nat, st: State)
    requires st.phase.Try? && Linked(c, first, sent, st) && AllEarned(c, first, sent, st.log) && Step(c, st).Again?
    ensures Linked(c, first, sent, Step(c, st).st) && AllEarned(c, first, sent, Step(c, st).st.log)
  {
    hide Step, AllEarned, Linked, Earned, Received, Onward, Sends, Redirects, Tries, Transient, Pause, LastReply;
    var log := st.log + [Sent(st.now)];
    var after := Step(c, st).st;
    TryGoesOn(c, st);
    LinkedSend(c, first, sent, st);
    if after.phase.Enter? {
      FollowIsEarned(c, first, sent, log, st.now, st.redirects, after.now);
      LinkedFollow(c, first, sent, st, log, Received(c.world.reply(st.sent), c.cap).value.status, after.now);
    } else {
      LinkedPause(c, first, sent, st, log, after.log[|log|].seconds);
    }
  }

  /** The last step of a run: nothing more is logged, or one last send. */
  lemma LinkedLast(c: Call, first: Request, sent: nat, st: State)
    requires Linked(c, first, sent, st) && AllEarned(c, first, sent, st.log) && Step(c, st).Done?
    ensures AllEarned(c, first, sent, Step(c, st).end.log)
  {
    hide AllEarned, Linked, Received, IsRetryable, Backoff, Onward, SafetyError;
    if st.phase.Try? && st.phase.attempt <= c.budget {
      LinkedSend(c, first, sent, st);
    }
  }

  lemma {:induction false} RunIsEarned(c: Call, first: Request, sent: nat, st: State)
    requires Linked(c, first, sent, st) && AllEarned(c, first, sent, st.log)
    ensures AllEarned(c, first, sent, Fetch(c, st).0.log)
    decreases RedirectsLeft(c, st), TriesLeft(c, st)
  {
    hide AllEarned, Linked, Fetch;
    Unfold(c, st);
    if Step(c, st).Again? {
      StepShrinks(c, st);
      if st.phase.Enter? {
        LinkedEnter(c, first, sent, st);
      } else {
        LinkedTry(c, first, sent, st);
      }
      hide Step;
      RunIsEarned(c, first, sent, Step(c, st).st);
    } else {
      LinkedLast(c, first, sent, st);
    }
  }

  /**
   * Every event of a request is earned: a check finds the URL in hand fetchable, a send comes after it or after a
   * pause, a pause has its exact length and comes after a reply worth another try while the budget lasts, and a
   * redirect is one the server answered, within the limit, to where its location leads.
   */
  lemma EveryEventIsEarned(c: Call, first: Request, sent: nat, i: nat)
    ensures
      var log := Fetch(c, Begin(first, sent)).0.log;
      i < |log| ==> Earned(c, first, sent, log[..i], log[i])
  {
    hide Fetch, Earned;
    RunIsEarned(c, first, sent, Begin(first, sent));
  }

  lemma NothingIsSent(c: Call, first: Request, sent: nat, i: nat)
    requires c.budget < 0
    ensures
      var log := Fetch(c, Begin(first, sent)).0.log;
      i < |log| ==> !log[i].Followed?
  {
    Unfold(c, Begin(first, sent));
    if Step(c, Begin(first, sent)).Again? {
      Unfold(c, Step(c, Begin(first, sent)).st);
    }
    hide Fetch, SafetyError;
  }

  /** A redirect to a URL that may not be fetched is the last thing in the log: nothing is checked, sent or awaited after it. */
  lemma UnsafeRedirectIsTheEnd(c: Call, first: Request, sent: nat, i: nat)
    ensures
      var (end, r) := Fetch(c, Begin(first, sent));
      i < |end.log| && end.log[i].Followed? && Objection(c, end.log[i].to).Some? ==>
        i == |end.log| - 1 && r == Err(Objection(c, end.log[i].to).value)
  {
    var (end, r) := Fetch(c, Begin(first, sent));
    EveryEventIsEarned(c, first, sent, i + 1);
    if c.budget < 0 {
      NothingIsSent(c, first, sent, i);
    } else {
      ResultIsExplained(c, first, sent);
    }
    hide Fetch, Explained, Objection, Transient, Whole, BaseDelay, Sends, Redirects, Tries, SafetyError;
    if i < |end.log| && end.log[i].Followed? {
      if i + 1 < |end.log| {
        assert end.log[..i + 1][|end.log[..i + 1]| - 1] == end.log[i];
      } else {
        ObjectionIsSafety(c, end.log[i].to);
        assert Target(first.url, end.log) == end.log[i].to;
      }
    }
  }

  /**
   * How a request ends, on the last reply: a response is that whole answer, unchanged and within the cap, and not one
   * the client would still have retried or followed; an error is what that reply was.
   */
  lemma ResultIsWhatTheWireSaid(c: Call, first: Request, sent: nat)
    requires c.budget >= 0
    ensures
      var (end, r) := Fetch(c, Begin(first, sent));
      if Objection(c, Target(first.url, end.log)).Some? then r == Err(Objection(c, Target(first.url, end.log)).value)
      else
        end.sent > 0
        && var w := c.world.reply(end.sent - 1);
           (Transient(w, c.cap) ==> Tries(end.log) == c.budget + 1)
           && match r
              case Ok(response) =>
                Whole(w, c.cap) && response == Response(w.status, w.headers, Concat(w.chunks))
                && (300 <= w.status < 400 ==> !c.cfg.followRedirects || w.headers.location.None? || w.headers.location.value == "")
              case Err(e) =>
                (e == Timeout ==> w.Silent? || (w.Answer? && w.ending == StalledOut))
                && (e == Unavailable ==> w.Refused? || (w.Answer? && w.ending == Dropped))
                && (e == TooLarge ==> w.Answer? && !Fits(w, c.cap))
                && (e == Undecodable ==> w.Answer? && w.ending == Garbled)
                && (e == TooManyRedirects || e == BadLocation ==> Whole(w, c.cap) && 300 <= w.status < 400)
                && e !in {InvalidScheme, MissingHost, BlockedHost, NoResponse}
  {
    var (end, r) := Fetch(c, Begin(first, sent));
    ResultIsExplained(c, first, sent);
    ObjectionIsSafety(c, Target(first.url, end.log));
    hide Fetch, Sends, Redirects, Tries, SafetyError, Objection, Target;
    if end.sent > 0 {
      WireSays(c.world.reply(end.sent - 1), c.cap);
    }
    hide Received, Fits, Concat;
  }

  // ---------------------------------------------------------------- what a redirect makes of a request

  predicate IsHeadInAnyCase(verb: string) {
    |verb| == 4 && verb[0] in {'h', 'H'} && verb[1] in {'e', 'E'} && verb[2] in {'a', 'A'} && verb[3] in {'d', 'D'}
  }

  /** An earlier redirect was one of those that turn a request into a plain GET. */
  predicate TurnedToGet(log: seq<Event>, i: nat) {
    exists j :: 0 <= j < i && j < |log| && log[j].Followed? && (log[j].status == 301 || log[j].status == 302 || log[j].status == 303)
  }

  /**
   * A request sent has the caller's method and body, unless a 301, 302 or 303 came before it and the method is not HEAD, in
   * any case of letters; then it is a GET without a body. A 307 or 308 changes neither.
   */
  lemma MethodIsKeptExactlyWhen(c: Call, first: Request, sent: nat, i: nat)
    ensures
      var log := Fetch(c, Begin(first, sent)).0.log;
      i < |log| && log[i].Sent? ==>
        if TurnedToGet(log, i) && !IsHeadInAnyCase(first.verb) then log[i].request.verb == "GET" && log[i].request.body == NoBody
        else log[i].request.verb == first.verb && log[i].request.body == first.body
  {
    var log := Fetch(c, Begin(first, sent)).0.log;
    EverySendIsSound(c, first, sent, i);
    hide Fetch, SafetyError, Cleared, Target;
    HeadIs(first.verb);
    hide IsHead, IsHeadInAnyCase;
    if i < |log| {
      if TurnedToGet(log, i) {
        var j :| 0 <= j < i && log[j].Followed? && (log[j].status == 301 || log[j].status == 302 || log[j].status == 303);
        assert log[..i][j].Followed? && Rewrites(log[..i][j].status);
      }
      if WasRewritten(log[..i]) {
        var j :| 0 <= j < i && log[..i][j].Followed? && Rewrites(log[..i][j].status);
        assert log[j].Followed?;
      }
    }
  }

  lemma HeadIs(verb: string)
    ensures IsHead(verb) <==> IsHeadInAnyCase(verb)
  {
    if |verb| == 4 {
      assert Upper(verb[0]) == 'H' <==> verb[0] in {'h', 'H'};
      assert Upper(verb[1]) == 'E' <==> verb[1] in {'e', 'E'};
      assert Upper(verb[2]) == 'A' <==> verb[2] in {'a', 'A'};
      assert Upper(verb[3]) == 'D' <==> verb[3] in {'d', 'D'};
    }
  }
}
