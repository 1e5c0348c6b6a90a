/**
 * The guarded HTTP client: bounded retries inside bounded redirects, a safety check at every hop, and a
 * streaming size cap. The network is an arbitrary oracle: its n-th reply may be anything.
 */
module HttpClient {
  import opened Prelude

  type Url = string
  type Bytes = seq<bv8>

  datatype Body = NoBody | Json(text: string) | Content(bytes: Bytes)

  datatype Config = Config(maxRetries: int, maxResponseBytes: int, followRedirects: bool, maxRedirects: int, enforcePublicHosts: bool)

  datatype Error =
    | InvalidScheme | MissingHost | BlockedHost | Timeout | Unavailable | TooLarge | Undecodable | TooManyRedirects | BadLocation | NoResponse

  /** A `Retry-After` value counts only when it is all digits. */
  datatype Headers = Headers(location: Option<Url>, retryAfter: Option<nat>)

  /** How the stream ends; a body whose content encoding is broken ends undecoded. */
  datatype Ending = Complete | StalledOut | Dropped | Garbled

  /** What the network does with one request: nothing in time, no connection, or an answer read in chunks. */
  datatype Wire =
    | Silent
    | Refused
    | Answer(status: int, headers: Headers, declared: Option<nat>, chunks: seq<Bytes>, ending: Ending)

  datatype Response = Response(status: int, headers: Headers, content: Bytes)

  datatype Parts = Parts(scheme: string, host: Option<string>)

  /** Everything outside the client: replies, jitter, URL joining, URL splitting, address ranges. */
  datatype World = World(
    reply: nat -> Wire,
    jitter: nat -> real,
    join: (Url, Url) -> Option<Url>,
    split: Url -> Parts,
    isPublic: string -> bool)

  const CHUNK_SIZE := 64 * 1024

  predicate IsRetryable(status: int) {
    status in {408, 425, 429, 500, 502, 503, 504}
  }

  predicate IsRedirect(status: int) {
    300 <= status < 400
  }

  /** The redirects that turn a request into a plain GET. */
  predicate Rewrites(status: int) {
    status in {301, 302, 303}
  }

  function Upper(c: char): char {
    if 'a' <= c <= 'z' then c - 'a' + 'A' else c
  }

  predicate IsHead(verb: string) {
    |verb| == 4 && forall i :: 0 <= i < 4 ==> Upper(verb[i]) == "HEAD"[i]
  }

  // ---------------------------------------------------------------- one exchange

  function Concat(chunks: seq<Bytes>): Bytes {
    if chunks == [] then [] else Concat(chunks[..|chunks| - 1]) + chunks[|chunks| - 1]
  }

  predicate Oversized(w: Wire, cap: int)
    requires w.Answer?
  {
    (w.declared.Some? && w.declared.value > cap) || (w.chunks != [] && |Concat(w.chunks)| > cap)
  }

  /** What the caller gets from one exchange: an oversized answer is refused even if its stream also broke. */
  function Received(w: Wire, cap: int): Result<Response, Error> {
    match w
    case Silent => Err(Timeout)
    case Refused => Err(Unavailable)
    case Answer(status, headers, _, chunks, ending) =>
      if Oversized(w, cap) then Err(TooLarge)
      else if ending == StalledOut then Err(Timeout)
      else if ending == Dropped then Err(Unavailable)
      else if ending == Garbled then Err(Undecodable)
      else Ok(Response(status, headers, Concat(chunks)))
  }

  lemma {:induction false} ConcatGrows(chunks: seq<Bytes>, n: nat)
    requires n <= |chunks|
    ensures |Concat(chunks[..n])| <= |Concat(chunks)|
  {
    if n < |chunks| {
      ConcatGrows(chunks[..|chunks| - 1], n);
      assert chunks[..|chunks| - 1][..n] == chunks[..n];
    } else {
      assert chunks[..n] == chunks;
    }
  }

  /** Reads an answer to its end or to the cap; `held` is the most that was ever in the buffer. */
  method ReadBody(w: Wire, cap: int) returns (r: Result<Response, Error>, held: nat)
    requires w.Answer?
    ensures r == Received(w, cap)
    ensures (forall i :: 0 <= i < |w.chunks| ==> |w.chunks[i]| <= CHUNK_SIZE) && cap >= 0 ==> held <= cap + CHUNK_SIZE
  {
    held := 0;
    if w.declared.Some? && w.declared.value > cap {
      return Err(TooLarge), 0;
    }
    var buffer: Bytes := [];
    var i := 0;
    while i < |w.chunks|
      invariant 0 <= i <= |w.chunks|
      invariant buffer == Concat(w.chunks[..i]) && held == |buffer|
      invariant i > 0 ==> |buffer| <= cap
    {
      assert w.chunks[..i + 1][..i] == w.chunks[..i];
      buffer := buffer + w.chunks[i];
      held := |buffer|;
      i := i + 1;
      if |buffer| > cap {
        ConcatGrows(w.chunks, i);
        return Err(TooLarge), held;
      }
    }
    assert w.chunks[..i] == w.chunks;
    if w.ending == StalledOut {
      return Err(Timeout), held;
    }
    if w.ending == Dropped {
      return Err(Unavailable), held;
    }
    if w.ending == Garbled {
      return Err(Undecodable), held;
    }
    return Ok(Response(w.status, w.headers, buffer)), held;
  }

  // ---------------------------------------------------------------- one request, step by step

  datatype Request = Request(verb: string, url: Url, body: Body)

  /** What one call of `request` is fixed to. */
  datatype Call = Call(cfg: Config, world: World, budget: int, cap: int)

  datatype Event =
    | Checked(url: Url)
    | Sent(request: Request)
    | Slept(seconds: real)
    | Followed(status: int, to: Url)

  /** `Enter` is the top of the outer loop, `Try` the top of the inner one. */
  datatype Phase = Enter | Try(attempt: nat)

  datatype State = State(now: Request, redirects: nat, phase: Phase, sent: nat, log: seq<Event>)

  datatype Next = Again(st: State) | Done(end: State, result: Result<Response, Error>)

  function SafetyError(cfg: Config, world: World, url: Url): Option<Error> {
    var p := world.split(url);
    if p.scheme != "http" && p.scheme != "https" then Some(InvalidScheme)
    else if p.host.None? || p.host.value == "" then Some(MissingHost)
    else if cfg.enforcePublicHosts && !world.isPublic(p.host.value) then Some(BlockedHost)
    else None
  }

  function BackoffBase(attempt: nat, retryAfter: Option<nat>): real {
    if retryAfter.Some? then Min(retryAfter.value as real, 30.0) else Min(Pow2(attempt) as real * 0.25, 8.0)
  }

  function Jittered(base: real, jitter: real): real {
    base * (0.5 + jitter / 2.0)
  }

  function Backoff(jitter: real, attempt: nat, retryAfter: Option<nat>): real {
    Jittered(BackoffBase(attempt, retryAfter), jitter)
  }

  function Note(st: State, e: Event): State {
    st.(log := st.log + [e])
  }

  function Retry(c: Call, st: State, attempt: nat, retryAfter: Option<nat>): State {
    Note(st, Slept(Backoff(c.world.jitter(st.sent), attempt, retryAfter))).(phase := Try(attempt + 1))
  }

  function Rewritten(r: Request, status: int, to: Url): Request {
    if Rewrites(status) && !IsHead(r.verb) then Request("GET", to, NoBody) else r.(url := to)
  }

  /** Where an answer sends the request next; `None` when the answer itself is the result. */
  function Onward(c: Call, now: Request, redirects: nat, answer: Response): Result<Option<Request>, Error> {
    if !IsRedirect(answer.status) then Ok(None)
    else if !c.cfg.followRedirects || answer.headers.location.None? || answer.headers.location.value == "" then Ok(None)
    else if redirects >= c.cfg.maxRedirects then Err(TooManyRedirects)
    else
      match c.world.join(now.url, answer.headers.location.value)
      case None => Err(BadLocation)
      case Some(to) => Ok(Some(Rewritten(now, answer.status, to)))
  }

  function Follow(st: State, status: int, next: Request): State {
    Note(st, Followed(status, next.url)).(now := next, redirects := st.redirects + 1, phase := Enter)
  }

  function AfterReply(c: Call, st: State, attempt: nat, reply: Result<Response, Error>): Next {
    match reply
    case Err(e) =>
      if (e == Timeout || e == Unavailable) && attempt < c.budget then Again(Retry(c, st, attempt, None)) else Done(st, Err(e))
    case Ok(response) =>
      if IsRetryable(response.status) && attempt < c.budget then Again(Retry(c, st, attempt, response.headers.retryAfter))
      else
        match Onward(c, st.now, st.redirects, response)
        case Err(e) => Done(st, Err(e))
        case Ok(None) => Done(st, Ok(response))
        case Ok(Some(next)) => Again(Follow(st, response.status, next))
  }

  function Step(c: Call, st: State): Next {
    match st.phase
    case Enter =>
      if SafetyError(c.cfg, c.world, st.now.url).Some? then Done(st, Err(SafetyError(c.cfg, c.world, st.now.url).value))
      else Again(Note(st, Checked(st.now.url)).(phase := Try(0)))
    case Try(attempt) =>
      if attempt > c.budget then Done(st, Err(NoResponse))
      else AfterReply(c, Note(st, Sent(st.now)).(sent := st.sent + 1), attempt, Received(c.world.reply(st.sent), c.cap))
  }

  function RedirectsLeft(c: Call, st: State): nat {
    if c.cfg.maxRedirects > st.redirects then c.cfg.maxRedirects - st.redirects else 0
  }

  function TriesLeft(c: Call, st: State): nat {
    match st.phase
    case Enter => if c.budget >= 0 then c.budget + 2 else 1
    case Try(attempt) => if c.budget >= attempt then c.budget - attempt + 1 else 0
  }

  /** The whole request: steps until one is the last. Termination is the lexicographic measure below. */
  function Fetch(c: Call, st: State): (State, Result<Response, Error>)
    decreases RedirectsLeft(c, st), TriesLeft(c, st)
  {
    match Step(c, st)
    case Again(st') => Fetch(c, st')
    case Done(end, result) => (end, result)
  }

  lemma Unfold(c: Call, st: State)
    ensures Step(c, st).Again? ==> Fetch(c, st) == Fetch(c, Step(c, st).st)
    ensures Step(c, st).Done? ==> Fetch(c, st) == (Step(c, st).end, Step(c, st).result)
  {
  }

  /** What becomes of a request after the reply to one try: another try, the end, or another hop. */
  lemma TriesAgain(c: Call, st: State, attempt: nat, r: Result<Response, Error>)
    requires st.phase == Try(attempt) && attempt < c.budget && r == Received(c.world.reply(st.sent), c.cap)
    requires if r.Ok? then IsRetryable(r.value.status) else r.error == Timeout || r.error == Unavailable
    ensures
      var pause := Slept(Backoff(c.world.jitter(st.sent + 1), attempt, if r.Ok? then r.value.headers.retryAfter else None));
      Fetch(c, st) == Fetch(c, State(st.now, st.redirects, Try(attempt + 1), st.sent + 1, st.log + [Sent(st.now)] + [pause]))
  {
    hide Received, Backoff, Onward, IsRetryable, Fetch;
    Unfold(c, st);
  }

  lemma Fails(c: Call, st: State, attempt: nat, r: Result<Response, Error>)
    requires st.phase == Try(attempt) && attempt <= c.budget && r == Received(c.world.reply(st.sent), c.cap)
    requires r.Err? && (r.error == Timeout || r.error == Unavailable ==> attempt == c.budget)
    ensures HopEnds(c, Fetch(c, st), st.redirects, Ended(r), st.sent + 1, st.log + [Sent(st.now)])
  {
    hide Received, Backoff, Onward, IsRetryable, Fetch;
    Unfold(c, st);
  }

  lemma Answers(c: Call, st: State, attempt: nat, r: Result<Response, Error>)
    requires st.phase == Try(attempt) && attempt <= c.budget && r == Received(c.world.reply(st.sent), c.cap)
    requires r.Ok? && (IsRetryable(r.value.status) ==> attempt == c.budget)
    ensures
      var log := st.log + [Sent(st.now)];
      match Onward(c, st.now, st.redirects, r.value)
      case Err(e) => HopEnds(c, Fetch(c, st), st.redirects, Ended(Err(e)), st.sent + 1, log)
      case Ok(None) => HopEnds(c, Fetch(c, st), st.redirects, Ended(r), st.sent + 1, log)
      case Ok(Some(next)) =>
        HopEnds(c, Fetch(c, st), st.redirects, Moved(next), st.sent + 1, log + [Followed(r.value.status, next.url)])
  {
    hide Received, Backoff, IsRetryable, Fetch;
    Unfold(c, st);
  }

  lemma NoTryLeft(c: Call, st: State, attempt: nat)
    requires st.phase == Try(attempt) && attempt > c.budget
    ensures HopEnds(c, Fetch(c, st), st.redirects, Ended(Err(NoResponse)), st.sent, st.log)
  {
  }

  predicate Ends(whole: (State, Result<Response, Error>), sent: nat, log: seq<Event>, r: Result<Response, Error>) {
    whole.0.sent == sent && whole.0.log == log && whole.1 == r
  }

  /** A hop that ended with the whole request, or moved it on to `next`. */
  predicate HopEnds(c: Call, whole: (State, Result<Response, Error>), redirects: nat, end: HopEnd, sent: nat, log: seq<Event>) {
    match end
    case Moved(next) => redirects < c.cfg.maxRedirects && whole == Fetch(c, State(next, redirects + 1, Enter, sent, log))
    case Ended(r) => Ends(whole, sent, log, r)
  }

  datatype HopEnd = Moved(next: Request) | Ended(result: Result<Response, Error>)

  function Begin(r: Request, sent: nat): State {
    State(r, 0, Enter, sent, [])
  }

  // ---------------------------------------------------------------- the client

  class SafeHttpClient {
    const cfg: Config
    const world: World
    var sent: nat
    ghost var log: seq<Event>

    constructor (cfg: Config, world: World)
      ensures this.cfg == cfg && this.world == world && sent == 0 && log == []
    {
      this.cfg, this.world, sent, log := cfg, world, 0, [];
    }

    method SendOnce(r: Request, cap: int) returns (reply: Result<Response, Error>)
      modifies this
      ensures sent == old(sent) + 1 && log == old(log) + [Sent(r)]
      ensures reply == Received(world.reply(old(sent)), cap)
    {
      var wire := world.reply(sent);
      sent := sent + 1;
      log := log + [Sent(r)];
      match wire {
        case Silent => return Err(Timeout);
        case Refused => return Err(Unavailable);
        case Answer(_, _, _, _, _) =>
          var held;
          reply, held := ReadBody(wire, cap);
      }
    }

    method AssertSafeUrl(url: Url) returns (e: Option<Error>)
      modifies this`log
      ensures e == SafetyError(cfg, world, url)
      ensures log == if e.None? then old(log) + [Checked(url)] else old(log)
    {
      var p := world.split(url);
      if p.scheme != "http" && p.scheme != "https" {
        return Some(InvalidScheme);
      }
      if p.host.None? || p.host.value == "" {
        return Some(MissingHost);
      }
      if cfg.enforcePublicHosts && !world.isPublic(p.host.value) {
        return Some(BlockedHost);
      }
      log := log + [Checked(url)];
      return None;
    }

    method SleepBackoff(attempt: nat, retryAfter: Option<nat>)
      modifies this`log
      ensures log == old(log) + [Slept(Backoff(world.jitter(sent), attempt, retryAfter))]
    {
      var delay;
      if retryAfter.Some? {
        delay := Min(retryAfter.value as real, 30.0);
      } else {
        delay := Min(Pow2(attempt) as real * 0.25, 8.0);
      }
      assert delay == BackoffBase(attempt, retryAfter);
      hide BackoffBase;
      log := log + [Slept(Jittered(delay, world.jitter(sent)))];
    }

    /** The redirect arm of the loop: the request to go on with, or nothing when the answer stands. */
    method NextHop(before: Request, redirects: nat, answer: Response, ghost budget: int, ghost cap: int)
      returns (next: Result<Option<Request>, Error>)
      ensures next == Onward(Call(cfg, world, budget, cap), before, redirects, answer)
      ensures next.Ok? && next.value.Some? ==> redirects < cfg.maxRedirects
    {
      if !(300 <= answer.status < 400) {
        return Ok(None);
      }
      var location := answer.headers.location;
      if !cfg.followRedirects || location.None? || location.value == "" {
        return Ok(None);
      }
      if redirects >= cfg.maxRedirects {
        return Err(TooManyRedirects);
      }
      var joined := world.join(before.url, location.value);
      if joined.None? {
        return Err(BadLocation);
      }
      var now := before.(url := joined.value);
      if answer.status in {301, 302, 303} && !IsHead(now.verb) {
        now := now.(verb := "GET");
        now := now.(body := NoBody);
      }
      return Ok(Some(now));
    }

    /** The body of the inner loop: one send, and a pause, a verdict on the hop, or the error to remember. */
    method TryOnce(now: Request, redirects: nat, attempt: nat, budget: int, cap: int) returns (over: Option<HopEnd>, failure: Option<Error>)
      requires attempt <= budget
      modifies this
      ensures over.None? ==> attempt < budget
      ensures
        var c := Call(cfg, world, budget, cap);
        var whole := Fetch(c, State(now, redirects, Try(attempt), old(sent), old(log)));
        match over
        case None => whole == Fetch(c, State(now, redirects, Try(attempt + 1), sent, log))
        case Some(end) => HopEnds(c, whole, redirects, end, sent, log)
    {
      ghost var c := Call(cfg, world, budget, cap);
      ghost var st := State(now, redirects, Try(attempt), sent, log);
      hide HopEnds, Fetch, Step, AfterReply, Received, Backoff, IsRetryable, Onward, Concat, SafetyError;
      failure := None;
      var response := SendOnce(now, cap);
      if response.Err? && (response.error == Timeout || response.error == Unavailable) {
        failure := Some(response.error);
        if attempt >= budget {
          Fails(c, st, attempt, response);
          return Some(Ended(response)), failure;
        }
        TriesAgain(c, st, attempt, response);
        SleepBackoff(attempt, None);
        return None, failure;
      }
      if response.Err? {
        Fails(c, st, attempt, response);
        return Some(Ended(response)), failure;
      }
      if IsRetryable(response.value.status) && attempt < budget {
        TriesAgain(c, st, attempt, response);
        SleepBackoff(attempt, response.value.headers.retryAfter);
        return None, failure;
      }
      Answers(c, st, attempt, response);
      var onward := NextHop(now, redirects, response.value, budget, cap);
      if onward.Ok? && onward.value.Some? {
        log := log + [Followed(response.value.status, onward.value.value.url)];
        return Some(Moved(onward.value.value)), failure;
      }
      over := Some(Ended(if onward.Ok? then response else Err(onward.error)));
    }

    /** One pass of the inner loop: tries until the hop is over. Its `else` arm needs a budget below zero. */
    method TryHop(now: Request, redirects: nat, budget: int, cap: int) returns (end: HopEnd)
      modifies this
      ensures
        var c := Call(cfg, world, budget, cap);
        HopEnds(c, Fetch(c, State(now, redirects, Try(0), old(sent), old(log))), redirects, end, sent, log)
    {
      ghost var c := Call(cfg, world, budget, cap);
      ghost var whole := Fetch(c, State(now, redirects, Try(0), sent, log));
      hide HopEnds, Fetch;
      var lastError: Option<Error> := None;
      var attempt := 0;
      while attempt < budget + 1
        invariant attempt >= 0 && (budget >= 0 ==> attempt <= budget)
        invariant lastError.Some? ==> budget >= 0
        invariant whole == Fetch(c, State(now, redirects, Try(attempt), sent, log))
      {
        var over, failure := TryOnce(now, redirects, attempt, budget, cap);
        if failure.Some? {
          lastError := failure;
        }
        if over.Some? {
          return over.value;
        }
        attempt := attempt + 1;
      }
      NoTryLeft(c, State(now, redirects, Try(attempt), sent, log), attempt);
      // The source re-raises an earlier error here; there is never one to re-raise.
      if lastError.Some? {
        assert false;
      }
      end := Ended(Err(NoResponse));
    }

    /** The nested loops of the client do exactly what `Fetch` says, on every input. */
    method Perform(first: Request, maxResponseBytes: Option<int>, retries: Option<int>) returns (r: Result<Response, Error>)
      modifies this
      ensures
        var budget := if retries.Some? then retries.value else cfg.maxRetries;
        var cap := if maxResponseBytes.Some? && maxResponseBytes.value != 0 then maxResponseBytes.value else cfg.maxResponseBytes;
        Ends(Fetch(Call(cfg, world, budget, cap), Begin(first, old(sent))), sent, log, r)
    {
      var budget := if retries.None? then cfg.maxRetries else retries.value;
      var cap := if maxResponseBytes.None? || maxResponseBytes.value == 0 then cfg.maxResponseBytes else maxResponseBytes.value;
      ghost var c := Call(cfg, world, budget, cap);
      var now := first;
      var redirects := 0;
      log := [];
      ghost var whole := Fetch(c, Begin(first, sent));
      hide Fetch, SafetyError;
      while true
        invariant redirects >= 0
        invariant whole == Fetch(c, State(now, redirects, Enter, sent, log))
        decreases if cfg.maxRedirects > redirects then cfg.maxRedirects - redirects else 0
      {
        Unfold(c, State(now, redirects, Enter, sent, log));
        var unsafe := AssertSafeUrl(now.url);
        if unsafe.Some? {
          return Err(unsafe.value);
        }
        var end := TryHop(now, redirects, budget, cap);
        if end.Ended? {
          return end.result;
        }
        now := end.next;
        redirects := redirects + 1;
      }
    }
  }
}
