/** What the figures in an answer promise the caller. */
module RateLimitLaws {
  import opened Prelude
  import opened RateLimit

  /** From index `i` on, the next `n` events are calls of one key with one quota at one instant. */
  ghost predicate BurstOf(es: seq<Event>, i: nat, n: nat, key: string, q: Quota, now: real) {
    i + n <= |es|
    && forall k :: i <= k < i + n ==> es[k].Acquire? && es[k].key == key && es[k].quota == q && es[k].now == now
  }

  /** The bucket of a key that was just called, with what is left in it. */
  predicate Holds(m: Buckets, key: string, tokens: real, now: real) {
    key in m && m[key] == Bucket(tokens, now)
  }

  lemma CallAgain(m: Buckets, maxKeys: int, e: Event, q: ValidQuota, tokens: real)
    requires e.Acquire? && e.quota == q && Holds(m, e.key, tokens, e.now) && 0.0 <= tokens <= q.limit as real
    ensures
      var (m', d) := Step(m, maxKeys, e);
      d.Some? && (d.value.allowed <==> tokens >= 1.0)
      && (d.value.allowed ==> d.value.remaining == tokens.Floor - 1)
      && Holds(m', e.key, if tokens >= 1.0 then tokens - 1.0 else tokens, e.now)
  {
    hide RetryAfter;
    assert Refill(q, 0.0) == 0.0;
    assert Level(m, e.key, q, e.now) == tokens;
    hide Level, Refill;
  }

  lemma OneLess(tokens: real)
    ensures (tokens - 1.0).Floor == tokens.Floor - 1 && (tokens >= 1.0 <==> tokens.Floor >= 1)
  {
  }

  /** A burst drains a bucket token by token. */
  lemma {:induction false} BurstSpends(maxKeys: int, es: seq<Event>, i: nat, n: nat, key: string, q: ValidQuota, tokens: real, now: real)
    requires BurstOf(es, i, n, key, q, now)
    requires Holds(Run(maxKeys, es[..i]), key, tokens, now) && 0.0 <= tokens <= q.limit as real
    ensures
      var left := if n <= tokens.Floor then tokens - n as real else tokens - tokens.Floor as real;
      Holds(Run(maxKeys, es[..i + n]), key, left, now) && 0.0 <= left <= tokens
  {
    hide Run, Step;
    if n > 0 {
      BurstSpends(maxKeys, es, i, n - 1, key, q, tokens, now);
      var before := if n - 1 <= tokens.Floor then tokens - (n - 1) as real else tokens - tokens.Floor as real;
      RunStep(maxKeys, es, i + n - 1);
      CallAgain(Run(maxKeys, es[..i + n - 1]), maxKeys, es[i + n - 1], q, before);
    }
  }

  lemma GrantLeaves(m: Buckets, maxKeys: int, e: Event, q: ValidQuota)
    requires e.Acquire? && e.quota == q && Step(m, maxKeys, e).1.Some? && Step(m, maxKeys, e).1.value.allowed
    ensures
      var (m', d) := Step(m, maxKeys, e);
      e.key in m' && Holds(m', e.key, m'[e.key].tokens, e.now)
      && d.value.remaining == m'[e.key].tokens.Floor && 0.0 <= m'[e.key].tokens <= q.limit as real
      && d.value.limit == q.limit && d.value.retryAfter == 0
  {
    hide Refill, RetryAfter, Stale, Dropped;
  }

  /**
   * `remaining` is what it says: of the calls the key makes at the instant of a grant, exactly the next `remaining` ones
   * are granted, each naming one less, and every one after them is denied with none remaining.
   */
  lemma RemainingIsWhatIsLeft(maxKeys: int, es: seq<Event>, i: nat, n: nat, key: string, q: ValidQuota, now: real)
    requires BurstOf(es, i, n + 2, key, q, now)
    requires Answer(maxKeys, es, i).Some? && Answer(maxKeys, es, i).value.allowed
    ensures
      var left, next := Answer(maxKeys, es, i).value.remaining, Answer(maxKeys, es, i + 1 + n);
      0 <= left < q.limit && next.Some?
      && (next.value.allowed <==> n < left)
      && next.value.remaining == if n < left then left - n - 1 else 0
  {
    hide Step, Run;
    var after := Run(maxKeys, es[..i + 1]);
    RunStep(maxKeys, es, i);
    GrantLeaves(Run(maxKeys, es[..i]), maxKeys, es[i], q);
    var tokens := after[key].tokens;
    BurstSpends(maxKeys, es, i + 1, n, key, q, tokens, now);
    var left := if n <= tokens.Floor then tokens - n as real else tokens - tokens.Floor as real;
    CallAgain(Run(maxKeys, es[..i + 1 + n]), maxKeys, es[i + 1 + n], q, left);
    NoneLeft(Run(maxKeys, es[..i + 1 + n]), maxKeys, es[i + 1 + n]);
    FloorLess(tokens, n);
    GrantTakesOne(Run(maxKeys, es[..i]), maxKeys, es[i], q);
  }

  lemma FloorLess(tokens: real, n: nat)
    ensures (tokens - n as real).Floor == tokens.Floor - n && (tokens - tokens.Floor as real).Floor == 0
  {
  }

  lemma NoneLeft(m: Buckets, maxKeys: int, e: Event)
    ensures
      var d := Step(m, maxKeys, e).1;
      d.Some? && !d.value.allowed ==> d.value.remaining == 0
  {
    hide RetryAfter, Level, Stale, Dropped;
  }

  lemma GrantTakesOne(m: Buckets, maxKeys: int, e: Event, q: ValidQuota)
    requires e.Acquire? && e.quota == q && Step(m, maxKeys, e).1.Some? && Step(m, maxKeys, e).1.value.allowed
    ensures Step(m, maxKeys, e).1.value.remaining < q.limit
  {
    hide Refill, RetryAfter, Stale, Dropped;
  }

  /** A key with no bucket is granted exactly its limit of calls at one instant. */
  lemma NewKeyGetsItsLimit(maxKeys: int, es: seq<Event>, i: nat, n: nat, key: string, q: ValidQuota, now: real)
    requires BurstOf(es, i, n + 1, key, q, now) && key !in Run(maxKeys, es[..i])
    ensures
      var d := Answer(maxKeys, es, i + n);
      d.Some? && (d.value.allowed <==> n < q.limit) && d.value.remaining == if n < q.limit then q.limit - n - 1 else 0
  {
    hide Step, Run;
    FirstCall(Run(maxKeys, es[..i]), maxKeys, es[i], q);
    if n > 0 {
      RemainingIsWhatIsLeft(maxKeys, es, i, n - 1, key, q, now);
    }
  }

  lemma FirstCall(m: Buckets, maxKeys: int, e: Event, q: ValidQuota)
    requires e.Acquire? && e.quota == q && e.key !in m
    ensures
      var d := Step(m, maxKeys, e).1;
      d.Some? && d.value.allowed && d.value.remaining == q.limit - 1
  {
    hide Stale, Dropped, RetryAfter;
    OneLess(q.limit as real);
  }

  // ---------------------------------------------------------------- the hint is no longer than it has to be

  /** Between `i` and `j` the key loses no bucket early, and nobody uses it, or evicts, with another or a shorter window. */
  ghost predicate Undisturbed(maxKeys: int, es: seq<Event>, key: string, q: Quota, i: nat, j: nat)
    requires i < j <= |es|
  {
    forall n :: i < n < j ==> Follows(es[n], key, q) && !Refunds(Run(maxKeys, es[..n]), maxKeys, es[n], key)
  }

  lemma {:induction false} LevelRises(maxKeys: int, es: seq<Event>, key: string, q: ValidQuota, i: nat, j: nat)
    requires Legal(maxKeys, es) && i < j <= |es| && Undisturbed(maxKeys, es, key, q, i, j)
    ensures
      Level(Run(maxKeys, es[..j]), key, q, es[j - 1].now)
      <= Level(Run(maxKeys, es[..i + 1]), key, q, es[i].now) + Refill(q, es[j - 1].now - es[i].now)
    decreases j
  {
    hide Refill, Level, Grants, Run, Step, Refunds, Follows;
    if j == i + 1 {
      RefillNonNegative(q, 0.0);
    } else {
      LevelRises(maxKeys, es, key, q, i, j - 1);
      var m, e := Run(maxKeys, es[..j - 1]), es[j - 1];
      RunSound(maxKeys, es, j - 1, e.now);
      LevelLater(m, key, q, es[j - 2].now, e.now);
      RunStep(maxKeys, es, j - 1);
      SpendStep(m, maxKeys, e, key, q);
      RefillAdds(q, es[j - 2].now - es[i].now, e.now - es[j - 2].now);
      assert e.now - es[i].now == (es[j - 2].now - es[i].now) + (e.now - es[j - 2].now);
    }
  }

  /** One second short of the hint, the missing part of a token is still missing. */
  lemma ShortOfTheHint(tokens: real, q: ValidQuota, waited: real)
    requires tokens < 1.0 && 0.0 <= waited < (RetryAfter(tokens, q) - 1) as real
    ensures tokens + Refill(q, waited) < 1.0
  {
    RatePositive(q);
    var r, deficit := Rate(q), 1.0 - tokens;
    var exact := deficit / r;
    assert waited < exact;
    assert Refill(q, exact) == deficit;
    RatePositive(q);
    LessRefill(q, waited, exact);
  }

  lemma LessRefill(q: ValidQuota, a: real, b: real)
    requires a < b
    ensures Refill(q, a) < Refill(q, b)
  {
    RatePositive(q);
  }

  /** A call earlier than one second before the hinted time is denied again: no shorter hint in whole seconds would do. */
  lemma RetryHintIsTight(maxKeys: int, es: seq<Event>, key: string, q: ValidQuota, i: nat, j: nat)
    requires Legal(maxKeys, es) && i < j < |es| && Undisturbed(maxKeys, es, key, q, i, j)
    requires es[i].Acquire? && es[i].key == key && es[i].quota == q
    requires es[j].Acquire? && es[j].key == key && es[j].quota == q
    requires !Answer(maxKeys, es, i).value.allowed
    requires es[j].now < es[i].now + (Answer(maxKeys, es, i).value.retryAfter - 1) as real
    ensures Answer(maxKeys, es, j).Some? && !Answer(maxKeys, es, j).value.allowed
  {
    hide Refill, Refilled, RetryAfter, Level, Run, Admit, Undisturbed;
    var tokens := Level(Run(maxKeys, es[..i + 1]), key, q, es[i].now);
    RunStep(maxKeys, es, i);
    AfterDenial(Run(maxKeys, es[..i]), maxKeys, es[i], q);
    SpendOwn(Run(maxKeys, es[..i]), maxKeys, es[i], q);
    LevelRises(maxKeys, es, key, q, i, j);
    LevelLater(Run(maxKeys, es[..j]), key, q, es[j - 1].now, es[j].now);
    var d1, d2 := es[j - 1].now - es[i].now, es[j].now - es[j - 1].now;
    RefillAdds(q, d1, d2);
    assert es[j].now - es[i].now == d1 + d2;
    ShortOfTheHint(tokens, q, es[j].now - es[i].now);
    SpendOwn(Run(maxKeys, es[..j]), maxKeys, es[j], q);
  }

  // ---------------------------------------------------------------- who is evicted

  /**
   * Only a new key at the ceiling evicts. It drops exactly the buckets untouched for its own window, or, if there is none,
   * a tenth of them, at least one, the longest untouched first.
   */
  lemma EvictionTakesExactly(m: Buckets, maxKeys: int, e: Event, key: string)
    requires Possible(m, maxKeys, e) && e.Acquire? && Usable(e.quota) && key in m && key != e.key
    ensures
      var m' := Step(m, maxKeys, e).0;
      var full := e.key !in m && |m| >= maxKeys;
      var stale := exists k :: k in m && m[k].updatedAt < e.now - e.quota.window as real;
      (key in m' ==> m'[key] == m[key])
      && (!full ==> key in m')
      && (full && stale ==> (key !in m' <==> m[key].updatedAt < e.now - e.quota.window as real))
      && (full && !stale ==>
            (key !in m' <==> key in e.shed)
            && 1 <= |e.shed| && (|e.shed| > 1 ==> 10 * |e.shed| <= |m|) && |m| < 10 * |e.shed| + 10
            && (key !in m' ==> forall k :: k in m && k !in e.shed ==> m[key].updatedAt <= m[k].updatedAt))
  {
    hide Level, RetryAfter;
    var idle := Stale(m, e.now, e.quota.window);
    assert forall k :: k in idle <==> k in m && m[k].updatedAt < e.now - e.quota.window as real;
    assert idle != {} <==> exists k :: k in idle;
    hide Stale;
  }
}
