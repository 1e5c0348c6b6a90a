/**
 * The in-process token-bucket rate limiter.
 *
 * Tokens and the monotonic clock are reals. The map from keys to buckets is the only state. Which of
 * several equally old buckets the oldest-tenth rule sheds is left open: `shed` is any set the rule
 * allows, so the results hold for every order in which the dictionary might list its keys.
 */
module RateLimit {
  import opened Prelude

  datatype Bucket = Bucket(tokens: real, updatedAt: real)

  type Buckets = map<string, Bucket>

  datatype Quota = Quota(limit: int, window: int)

  datatype Decision = Decision(allowed: bool, limit: int, remaining: int, retryAfter: int)

  predicate Usable(q: Quota) {
    q.limit > 0 && q.window > 0
  }

  type ValidQuota = q: Quota | Usable(q) witness Quota(1, 1)

  function Rate(q: ValidQuota): real {
    q.limit as real / q.window as real
  }

  /** Tokens regained in `elapsed` seconds. */
  function Refill(q: ValidQuota, elapsed: real): real {
    elapsed * Rate(q)
  }

  function Refilled(b: Bucket, q: ValidQuota, now: real): real {
    Min(q.limit as real, b.tokens + Refill(q, now - b.updatedAt))
  }

  /** The tokens `key` could draw on at `now`; an absent bucket counts as a full one. */
  function Level(m: Buckets, key: string, q: ValidQuota, now: real): real {
    if key in m then Refilled(m[key], q, now) else q.limit as real
  }

  function RetryAfter(tokens: real, q: ValidQuota): int {
    var seconds := ((1.0 - tokens) / Rate(q)).Floor + 1;
    if seconds > 1 then seconds else 1
  }

  // ---------------------------------------------------------------- eviction

  function Stale(m: Buckets, now: real, window: int): set<string> {
    set k | k in m && m[k].updatedAt < now - window as real
  }

  function ShedCount(n: nat): nat {
    var tenth := if n / 10 > 1 then n / 10 else 1;
    if tenth < n then tenth else n
  }

  /** `shed` is an oldest tenth of the map: nothing kept was touched before anything dropped. */
  ghost predicate OldestTenth(m: Buckets, shed: set<string>) {
    shed <= m.Keys && |shed| == ShedCount(|m|)
    && forall a, b :: a in shed && b in m.Keys - shed ==> m[a].updatedAt <= m[b].updatedAt
  }

  function Dropped(m: Buckets, now: real, window: int, shed: set<string>): set<string> {
    if Stale(m, now, window) != {} then Stale(m, now, window) else shed
  }

  predicate MustEvict(m: Buckets, maxKeys: int, key: string) {
    key !in m && |m| >= maxKeys
  }

  // ---------------------------------------------------------------- one call

  datatype Event =
    | Acquire(key: string, quota: Quota, now: real, shed: set<string>)
    | Reset(key: string, now: real)

  /** Whether the oldest-tenth rule, rather than staleness, drops buckets at this event. */
  predicate Sheds(m: Buckets, maxKeys: int, e: Event) {
    e.Acquire? && Usable(e.quota) && MustEvict(m, maxKeys, e.key) && Stale(m, e.now, e.quota.window) == {}
  }

  ghost predicate Possible(m: Buckets, maxKeys: int, e: Event) {
    Sheds(m, maxKeys, e) ==> OldestTenth(m, e.shed)
  }

  function Admit(m: Buckets, key: string, q: ValidQuota, now: real): (Buckets, Decision) {
    var tokens := Level(m, key, q, now);
    if tokens >= 1.0 then
      (m[key := Bucket(tokens - 1.0, now)], Decision(true, q.limit, (tokens - 1.0).Floor, 0))
    else
      (m[key := Bucket(tokens, now)], Decision(false, q.limit, 0, RetryAfter(tokens, q)))
  }

  /** An event that does not reach a bucket (a reset, or a quota the limiter rejects) decides nothing. */
  function Step(m: Buckets, maxKeys: int, e: Event): (Buckets, Option<Decision>) {
    match e
    case Reset(key, _) => (m - {key}, None)
    case Acquire(key, q, now, shed) =>
      if !Usable(q) then (m, None)
      else
        var kept := if MustEvict(m, maxKeys, key) then m - Dropped(m, now, q.window, shed) else m;
        var (m', d) := Admit(kept, key, q, now);
        (m', Some(d))
  }

  function Run(maxKeys: int, es: seq<Event>): Buckets {
    if es == [] then map[] else Step(Run(maxKeys, es[..|es| - 1]), maxKeys, es[|es| - 1]).0
  }

  /** What the i-th event was answered. */
  function Answer(maxKeys: int, es: seq<Event>, i: nat): Option<Decision>
    requires i < |es|
  {
    Step(Run(maxKeys, es[..i]), maxKeys, es[i]).1
  }

  /** The clock is monotonic and every shed set is one the rule could pick. */
  ghost predicate Legal(maxKeys: int, es: seq<Event>) {
    (forall i, j :: 0 <= i < j < |es| ==> es[i].now <= es[j].now)
    && forall i :: 0 <= i < |es| ==> Possible(Run(maxKeys, es[..i]), maxKeys, es[i])
  }

  lemma RunStep(maxKeys: int, es: seq<Event>, i: nat)
    requires i < |es|
    ensures Run(maxKeys, es[..i + 1]) == Step(Run(maxKeys, es[..i]), maxKeys, es[i]).0
  {
    assert es[..i + 1][..i] == es[..i];
  }

  /** Buckets never owe tokens and were never touched in the future. */
  ghost predicate Sound(m: Buckets, now: real) {
    forall k :: k in m ==> m[k].tokens >= 0.0 && m[k].updatedAt <= now
  }

  lemma RatePositive(q: ValidQuota)
    ensures Rate(q) > 0.0 && Rate(q) * q.window as real == q.limit as real
  {
  }

  lemma ProductSign(a: real, b: real)
    requires a >= 0.0 && b >= 0.0
    ensures a * b >= 0.0
  {
  }

  lemma RefillAdds(q: ValidQuota, a: real, b: real)
    ensures Refill(q, a + b) == Refill(q, a) + Refill(q, b)
  {
  }

  lemma RefillNonNegative(q: ValidQuota, a: real)
    requires a >= 0.0
    ensures Refill(q, a) >= 0.0
  {
    RatePositive(q);
    ProductSign(a, Rate(q));
  }

  /** A whole window refills a whole bucket. */
  lemma RefillWindow(q: ValidQuota, a: real)
    requires a >= q.window as real
    ensures Refill(q, a) >= q.limit as real
  {
    RatePositive(q);
    RefillNonNegative(q, a - q.window as real);
    RefillAdds(q, a - q.window as real, q.window as real);
  }

  lemma SoundStep(m: Buckets, maxKeys: int, e: Event, before: real)
    requires Sound(m, before) && before <= e.now
    ensures Sound(Step(m, maxKeys, e).0, e.now)
  {
    hide Refill, RetryAfter;
    if e.Acquire? && Usable(e.quota) && e.key in m {
      RefillNonNegative(e.quota, e.now - m[e.key].updatedAt);
    }
  }

  lemma {:induction false} RunSound(maxKeys: int, es: seq<Event>, i: nat, now: real)
    requires Legal(maxKeys, es) && i <= |es|
    requires forall n :: 0 <= n < i ==> es[n].now <= now
    ensures Sound(Run(maxKeys, es[..i]), now)
  {
    if i > 0 {
      RunSound(maxKeys, es, i - 1, es[i - 1].now);
      RunStep(maxKeys, es, i - 1);
      SoundStep(Run(maxKeys, es[..i - 1]), maxKeys, es[i - 1], es[i - 1].now);
    }
  }

  // ---------------------------------------------------------------- the map stays bounded

  lemma SubsetSize<T>(a: set<T>, b: set<T>)
    requires a <= b
    ensures |a| <= |b| && |b - a| == |b| - |a|
  {
    assert b == a + (b - a);
  }

  /** The number of buckets never exceeds the key ceiling (nor one, if the ceiling is lower). */
  lemma {:induction false} MapStaysBounded(maxKeys: int, es: seq<Event>)
    requires Legal(maxKeys, es)
    ensures |Run(maxKeys, es)| <= if maxKeys >= 1 then maxKeys else 1
  {
    if es != [] {
      var init, e := es[..|es| - 1], es[|es| - 1];
      forall i | 0 <= i < |init|
        ensures Possible(Run(maxKeys, init[..i]), maxKeys, init[i])
      {
        assert init[..i] == es[..i];
      }
      MapStaysBounded(maxKeys, init);
      BoundedStep(Run(maxKeys, init), maxKeys, e);
    }
  }

  lemma SomethingGoes(m: Buckets, maxKeys: int, e: Event)
    requires Possible(m, maxKeys, e) && e.Acquire? && Usable(e.quota) && MustEvict(m, maxKeys, e.key) && m != map[]
    ensures
      var gone := Dropped(m, e.now, e.quota.window, e.shed);
      gone <= m.Keys && |m.Keys - gone| < |m|
  {
    hide Refill, RetryAfter;
    var gone := Dropped(m, e.now, e.quota.window, e.shed);
    assert gone <= m.Keys;
    SubsetSize(gone, m.Keys);
    assert gone != {};
  }

  lemma AddOne<T>(s: set<T>, x: T)
    ensures |s + {x}| == if x in s then |s| else |s| + 1
  {
    if x in s {
      assert s + {x} == s;
    }
  }

  lemma KeysAfter(m: Buckets, maxKeys: int, e: Event)
    requires e.Acquire? && Usable(e.quota)
    ensures
      var gone := if MustEvict(m, maxKeys, e.key) then Dropped(m, e.now, e.quota.window, e.shed) else {};
      Step(m, maxKeys, e).0.Keys == (m.Keys - gone) + {e.key}
  {
    hide Refill, RetryAfter, Stale, Dropped, Level;
  }

  lemma BoundedStep(m: Buckets, maxKeys: int, e: Event)
    requires Possible(m, maxKeys, e)
    requires |m| <= if maxKeys >= 1 then maxKeys else 1
    ensures |Step(m, maxKeys, e).0| <= if maxKeys >= 1 then maxKeys else 1
  {
    hide Admit, Dropped, Possible, Sheds;
    var m' := Step(m, maxKeys, e).0;
    if e.Reset? {
      SubsetSize(m'.Keys, m.Keys);
    } else if Usable(e.quota) {
      KeysAfter(m, maxKeys, e);
      hide Step;
      if MustEvict(m, maxKeys, e.key) {
        var gone := Dropped(m, e.now, e.quota.window, e.shed);
        if m == map[] {
          assert m.Keys - gone == {};
        } else {
          SomethingGoes(m, maxKeys, e);
        }
        AddOne(m.Keys - gone, e.key);
      } else {
        assert m.Keys - {} == m.Keys;
        AddOne(m.Keys, e.key);
      }
    }
  }

  // ---------------------------------------------------------------- how levels move

  /** Waiting refills: the level later is determined by the level now. */
  lemma LevelLater(m: Buckets, key: string, q: ValidQuota, now: real, later: real)
    requires now <= later
    ensures Level(m, key, q, later) == Min(q.limit as real, Level(m, key, q, now) + Refill(q, later - now))
  {
    hide Refill;
    RefillNonNegative(q, later - now);
    if key in m {
      var b := m[key];
      RefillAdds(q, now - b.updatedAt, later - now);
      assert later - b.updatedAt == (now - b.updatedAt) + (later - now);
    }
  }

  lemma LevelNonNegative(m: Buckets, key: string, q: ValidQuota, now: real)
    requires Sound(m, now)
    ensures 0.0 <= Level(m, key, q, now) <= q.limit as real
  {
    hide Refill;
    if key in m {
      RefillNonNegative(q, now - m[key].updatedAt);
    }
  }

  /** A bucket untouched for a whole window is full, so dropping it changes no level. */
  lemma StaleIsFull(m: Buckets, key: string, q: ValidQuota, now: real, window: int)
    requires Sound(m, now) && key in Stale(m, now, window) && window >= q.window
    ensures Level(m, key, q, now) == q.limit as real
  {
    hide Refill;
    RefillWindow(q, now - m[key].updatedAt);
  }

  /** After its own call, a key's level is the tokens left in its bucket. */
  lemma LevelAtTouch(m: Buckets, key: string, q: ValidQuota)
    requires key in m && m[key].tokens <= q.limit as real
    ensures Level(m, key, q, m[key].updatedAt) == m[key].tokens
  {
  }

  /** Whether this event gives `key` a fresh bucket before its old one had refilled. */
  predicate Refunds(m: Buckets, maxKeys: int, e: Event, key: string) {
    (e.Reset? && e.key == key) || (Sheds(m, maxKeys, e) && key in e.shed)
  }

  predicate Grants(m: Buckets, maxKeys: int, e: Event, key: string) {
    var d := Step(m, maxKeys, e).1;
    e.key == key && d.Some? && d.value.allowed
  }

  /** `key` is always used with quota `q`, and no caller evicts on a shorter window than `q`'s. */
  predicate Follows(e: Event, key: string, q: Quota) {
    e.Acquire? && Usable(e.quota) ==> (e.key == key ==> e.quota == q) && e.quota.window >= q.window
  }

  /** A call on `key` itself: it spends what it is granted, and nothing else. */
  lemma SpendOwn(m: Buckets, maxKeys: int, e: Event, q: ValidQuota)
    requires e.Acquire? && e.quota == q
    ensures
      Level(Step(m, maxKeys, e).0, e.key, q, e.now)
      == Level(m, e.key, q, e.now) - (if Grants(m, maxKeys, e, e.key) then 1.0 else 0.0)
    ensures Grants(m, maxKeys, e, e.key) <==> Level(m, e.key, q, e.now) >= 1.0
  {
    hide Refill, RetryAfter, Stale;
    var m' := Step(m, maxKeys, e).0;
    hide Refilled;
    LevelBelowLimit(m, e.key, q, e.now);
    LevelAtTouch(m', e.key, q);
  }

  lemma LevelBelowLimit(m: Buckets, key: string, q: ValidQuota, now: real)
    ensures Level(m, key, q, now) <= q.limit as real
  {
  }

  /** A call on another key, or a reset: `key` keeps its bucket or is as good as full. */
  lemma SpendOther(m: Buckets, maxKeys: int, e: Event, key: string, q: ValidQuota)
    requires e.Acquire? && Usable(e.quota) ==> e.key != key
    ensures !Grants(m, maxKeys, e, key)
    ensures
      var m' := Step(m, maxKeys, e).0;
      if key in m' then key in m && m'[key] == m[key]
      else
        key !in m || (e.Reset? && e.key == key)
        || (e.Acquire? && Usable(e.quota) && MustEvict(m, maxKeys, e.key) && key in Dropped(m, e.now, e.quota.window, e.shed))
  {
    hide Refill, RetryAfter, Stale, Level;
  }

  /** One event: what `key` spends is covered by what it had, the refill, and any refund. */
  lemma SpendStep(m: Buckets, maxKeys: int, e: Event, key: string, q: ValidQuota)
    requires Sound(m, e.now) && Follows(e, key, q)
    ensures
      (if Grants(m, maxKeys, e, key) then 1.0 else 0.0) + Level(Step(m, maxKeys, e).0, key, q, e.now)
      <= Level(m, key, q, e.now) + (if Refunds(m, maxKeys, e, key) then q.limit as real else 0.0)
  {
    hide Refill, Refilled, RetryAfter, Grants, Step, Stale;
    LevelNonNegative(m, key, q, e.now);
    if e.Acquire? && Usable(e.quota) && e.key == key {
      SpendOwn(m, maxKeys, e, q);
    } else {
      SpendOther(m, maxKeys, e, key, q);
      if e.Acquire? && Usable(e.quota) && key in Stale(m, e.now, e.quota.window) {
        StaleIsFull(m, key, q, e.now, e.quota.window);
      }
    }
  }

  // ---------------------------------------------------------------- the grant bound

  function CountGrants(maxKeys: int, es: seq<Event>, key: string, i: nat, j: nat): nat
    requires i <= j <= |es|
  {
    if i == j then 0
    else CountGrants(maxKeys, es, key, i, j - 1)
         + if Grants(Run(maxKeys, es[..j - 1]), maxKeys, es[j - 1], key) then 1 else 0
  }

  function CountRefunds(maxKeys: int, es: seq<Event>, key: string, i: nat, j: nat): nat
    requires i <= j <= |es|
  {
    if i == j then 0
    else CountRefunds(maxKeys, es, key, i, j - 1)
         + if Refunds(Run(maxKeys, es[..j - 1]), maxKeys, es[j - 1], key) then 1 else 0
  }

  ghost predicate FollowsAll(es: seq<Event>, key: string, q: Quota) {
    forall n :: 0 <= n < |es| ==> Follows(es[n], key, q)
  }

  /** The tokens of `n` full buckets. */
  function Full(q: ValidQuota, n: nat): real {
    q.limit as real * n as real
  }

  lemma FullAdds(q: ValidQuota, n: nat)
    ensures Full(q, n + 1) == Full(q, n) + q.limit as real
    ensures Full(q, 1) == q.limit as real
  {
  }

  lemma {:induction false} SpendRun(maxKeys: int, es: seq<Event>, key: string, q: ValidQuota, i: nat, j: nat)
    requires Legal(maxKeys, es) && FollowsAll(es, key, q)
    requires i < j <= |es|
    ensures
      CountGrants(maxKeys, es, key, i, j) as real + Level(Run(maxKeys, es[..j]), key, q, es[j - 1].now)
      <= Full(q, 1 + CountRefunds(maxKeys, es, key, i, j)) + Refill(q, es[j - 1].now - es[i].now)
    decreases j
  {
    hide Refill, Full, Step, Level, Grants, Refunds, Run;
    var e := es[j - 1];
    var m := Run(maxKeys, es[..j - 1]);
    RunSound(maxKeys, es, j - 1, e.now);
    RunStep(maxKeys, es, j - 1);
    SpendStep(m, maxKeys, e, key, q);
    var refunds := CountRefunds(maxKeys, es, key, i, j - 1);
    FullAdds(q, 1 + refunds);
    if i == j - 1 {
      LevelNonNegative(m, key, q, e.now);
      RefillNonNegative(q, 0.0);
      assert CountGrants(maxKeys, es, key, i, i) == 0 && CountRefunds(maxKeys, es, key, i, i) == 0;
    } else {
      SpendRun(maxKeys, es, key, q, i, j - 1);
      LevelLater(m, key, q, es[j - 2].now, e.now);
      RefillAdds(q, es[j - 2].now - es[i].now, e.now - es[j - 2].now);
      assert e.now - es[i].now == (es[j - 2].now - es[i].now) + (e.now - es[j - 2].now);
    }
  }

  lemma RateTimes(q: ValidQuota, t: real)
    ensures Refill(q, t) == t * q.limit as real / q.window as real
  {
    var l, w := q.limit as real, q.window as real;
    assert t * (l / w) == t * l / w;
  }

  /**
   * Over any stretch of calls, the requests granted to a key are at most one full bucket, plus one for
   * every time its bucket was shed early or reset, plus the refill over the time that passed.
   */
  lemma {:induction false} GrantBound(maxKeys: int, es: seq<Event>, key: string, q: ValidQuota, i: nat, j: nat)
    requires Legal(maxKeys, es) && FollowsAll(es, key, q)
    requires i < j <= |es|
    ensures
      CountGrants(maxKeys, es, key, i, j) as real
      <= q.limit as real * (1 + CountRefunds(maxKeys, es, key, i, j)) as real
         + (es[j - 1].now - es[i].now) * q.limit as real / q.window as real
  {
    hide CountGrants, CountRefunds, Level, Run, FollowsAll, Refill;
    SpendRun(maxKeys, es, key, q, i, j);
    RunSound(maxKeys, es, j, es[j - 1].now);
    LevelNonNegative(Run(maxKeys, es[..j]), key, q, es[j - 1].now);
    RateTimes(q, es[j - 1].now - es[i].now);
  }

  // ---------------------------------------------------------------- the retry hint

  /** An event that grants `key` nothing never lowers its level. */
  lemma WaitStep(m: Buckets, maxKeys: int, e: Event, key: string, q: ValidQuota)
    requires e.Acquire? && Usable(e.quota) && e.key == key ==> e.quota == q
    requires !Grants(m, maxKeys, e, key)
    ensures Level(Step(m, maxKeys, e).0, key, q, e.now) >= Level(m, key, q, e.now)
  {
    hide Refill, Refilled, RetryAfter, Grants, Step, Stale;
    LevelBelowLimit(m, key, q, e.now);
    if e.Acquire? && Usable(e.quota) && e.key == key {
      SpendOwn(m, maxKeys, e, q);
    } else {
      SpendOther(m, maxKeys, e, key, q);
    }
  }

  /** Between `i` and `j` nothing is granted to `key`, and nobody uses it with another quota. */
  ghost predicate Waits(maxKeys: int, es: seq<Event>, key: string, q: Quota, i: nat, j: nat)
    requires i < j <= |es|
  {
    forall n :: i < n < j ==>
      (es[n].Acquire? && Usable(es[n].quota) && es[n].key == key ==> es[n].quota == q)
      && !Grants(Run(maxKeys, es[..n]), maxKeys, es[n], key)
  }

  lemma {:induction false} WaitRun(maxKeys: int, es: seq<Event>, key: string, q: ValidQuota, i: nat, j: nat)
    requires Legal(maxKeys, es) && i < j <= |es| && Waits(maxKeys, es, key, q, i, j)
    ensures
      Level(Run(maxKeys, es[..j]), key, q, es[j - 1].now)
      >= Min(q.limit as real,
             Level(Run(maxKeys, es[..i + 1]), key, q, es[i].now) + Refill(q, es[j - 1].now - es[i].now))
    decreases j
  {
    hide Refill, Step, Level, Grants, Run;
    var l := q.limit as real;
    if j == i + 1 {
      LevelLater(Run(maxKeys, es[..j]), key, q, es[i].now, es[i].now);
    } else {
      WaitRun(maxKeys, es, key, q, i, j - 1);
      var m := Run(maxKeys, es[..j - 1]);
      var d1, d2 := es[j - 2].now - es[i].now, es[j - 1].now - es[j - 2].now;
      LevelLater(m, key, q, es[j - 2].now, es[j - 1].now);
      RunStep(maxKeys, es, j - 1);
      WaitStep(m, maxKeys, es[j - 1], key, q);
      RefillNonNegative(q, d2);
      RefillAdds(q, d1, d2);
      assert es[j - 1].now - es[i].now == d1 + d2;
    }
  }

  /** The hint is long enough for the missing fraction of a token to come back. */
  lemma RetryCoversDeficit(tokens: real, q: ValidQuota, waited: real)
    requires waited >= RetryAfter(tokens, q) as real
    ensures tokens + Refill(q, waited) >= 1.0
  {
    RatePositive(q);
    var r, deficit := Rate(q), 1.0 - tokens;
    var exact := deficit / r;
    assert waited >= exact;
    assert Refill(q, exact) == deficit;
    RefillNonNegative(q, waited - exact);
    RefillAdds(q, exact, waited - exact);
  }

  /** A denied call leaves its bucket short of one token, and hints from exactly that shortage. */
  lemma AfterDenial(m: Buckets, maxKeys: int, e: Event, q: ValidQuota)
    requires e.Acquire? && e.quota == q && !Grants(m, maxKeys, e, e.key)
    ensures
      var (m', d) := Step(m, maxKeys, e);
      d.Some? && d.value.retryAfter == RetryAfter(Level(m', e.key, q, e.now), q)
  {
    hide Refill, Refilled, RetryAfter, Stale;
    LevelBelowLimit(m, e.key, q, e.now);
    LevelAtTouch(Step(m, maxKeys, e).0, e.key, q);
  }

  /** From `tokens` after event `i`, a wait without grants brings the level at `now` to one token or more. */
  lemma LevelAfterWait(maxKeys: int, es: seq<Event>, key: string, q: ValidQuota, i: nat, j: nat, tokens: real, now: real)
    requires Legal(maxKeys, es) && i < j <= |es| && Waits(maxKeys, es, key, q, i, j)
    requires tokens == Level(Run(maxKeys, es[..i + 1]), key, q, es[i].now)
    requires now >= es[j - 1].now && now >= es[i].now + RetryAfter(tokens, q) as real
    ensures Level(Run(maxKeys, es[..j]), key, q, now) >= 1.0
  {
    hide Refill, Refilled, RetryAfter, Level, Run, Step, Waits, Legal;
    WaitRun(maxKeys, es, key, q, i, j);
    var d1, d2 := es[j - 1].now - es[i].now, now - es[j - 1].now;
    LevelLater(Run(maxKeys, es[..j]), key, q, es[j - 1].now, now);
    RetryCoversDeficit(tokens, q, now - es[i].now);
    RefillNonNegative(q, d2);
    RefillAdds(q, d1, d2);
    assert now - es[i].now == d1 + d2;
  }

  /**
   * A caller that was denied and waits for the hinted number of seconds is granted, whatever denied
   * calls, other keys' calls, evictions or resets happen in between, as long as nothing is granted to it.
   */
  lemma {:induction false} RetryHintIsHonest(maxKeys: int, es: seq<Event>, key: string, q: ValidQuota, i: nat, j: nat)
    requires Legal(maxKeys, es) && i < j < |es|
    requires es[i].Acquire? && es[i].key == key && es[i].quota == q
    requires es[j].Acquire? && es[j].key == key && es[j].quota == q
    requires Waits(maxKeys, es, key, q, i, j)
    requires !Answer(maxKeys, es, i).value.allowed
    requires es[j].now >= es[i].now + Answer(maxKeys, es, i).value.retryAfter as real
    ensures Answer(maxKeys, es, j).value.allowed
  {
    hide Refill, Refilled, RetryAfter, Level, Run, Admit, Waits;
    RunStep(maxKeys, es, i);
    AfterDenial(Run(maxKeys, es[..i]), maxKeys, es[i], q);
    var tokens := Level(Run(maxKeys, es[..i + 1]), key, q, es[i].now);
    LevelAfterWait(maxKeys, es, key, q, i, j, tokens, es[j].now);
    SpendOwn(Run(maxKeys, es[..j]), maxKeys, es[j], q);
  }

  // ---------------------------------------------------------------- refinement of the unbounded limiter

  /** The limiter without any key ceiling. */
  function IdealStep(m: Buckets, e: Event): (Buckets, Option<Decision>) {
    Step(m, |m| + 1, e)
  }

  function IdealRun(es: seq<Event>): Buckets {
    if es == [] then map[] else IdealStep(IdealRun(es[..|es| - 1]), es[|es| - 1]).0
  }

  function IdealAnswer(es: seq<Event>, i: nat): Option<Decision>
    requires i < |es|
  {
    IdealStep(IdealRun(es[..i]), es[i]).1
  }

  /** Whenever `key` is used, it is with this quota. */
  ghost predicate KeepsQuota(es: seq<Event>, key: string, q: Quota) {
    forall i :: 0 <= i < |es| && es[i].Acquire? && Usable(es[i].quota) && es[i].key == key ==> es[i].quota == q
  }

  /** An eviction, stale or shed, takes the bucket of `key` before a window of its own has passed. */
  predicate DropsEarly(m: Buckets, maxKeys: int, e: Event, key: string, q: Quota) {
    e.Acquire? && Usable(e.quota) && MustEvict(m, maxKeys, e.key)
    && key in m && key in Dropped(m, e.now, e.quota.window, e.shed) && key !in Stale(m, e.now, q.window)
  }

  ghost predicate NeverDropsEarly(maxKeys: int, es: seq<Event>, n: nat, key: string, q: Quota)
    requires n <= |es|
  {
    forall i :: 0 <= i < n ==> !DropsEarly(Run(maxKeys, es[..i]), maxKeys, es[i], key, q)
  }

  /** A call sees a bucket only through its level. */
  lemma SameAdmit(m: Buckets, ideal: Buckets, key: string, q: ValidQuota, now: real)
    requires Level(m, key, q, now) == Level(ideal, key, q, now)
    ensures Admit(m, key, q, now).1 == Admit(ideal, key, q, now).1
    ensures key in Admit(m, key, q, now).0 && key in Admit(ideal, key, q, now).0
    ensures Admit(m, key, q, now).0[key] == Admit(ideal, key, q, now).0[key]
  {
    hide Level, RetryAfter;
  }

  lemma LevelOf(m: Buckets, ideal: Buckets, key: string, q: ValidQuota, now: real)
    requires key in m <==> key in ideal
    requires key in m ==> m[key] == ideal[key]
    ensures Level(m, key, q, now) == Level(ideal, key, q, now)
  {
  }

  /** An eviction that is not early leaves the level as it was. */
  lemma EvictionKeepsLevel(m: Buckets, maxKeys: int, e: Event, key: string, q: ValidQuota)
    requires Sound(m, e.now) && !DropsEarly(m, maxKeys, e, key, q) && e.Acquire? && Usable(e.quota)
    ensures
      var kept := if MustEvict(m, maxKeys, e.key) then m - Dropped(m, e.now, e.quota.window, e.shed) else m;
      Level(kept, key, q, e.now) == Level(m, key, q, e.now)
  {
    var kept := if MustEvict(m, maxKeys, e.key) then m - Dropped(m, e.now, e.quota.window, e.shed) else m;
    if key in m && key !in kept {
      StaleIsFull(m, key, q, e.now, q.window);
      hide Refilled;
    } else {
      LevelOf(m, kept, key, q, e.now);
    }
  }

  lemma SameLevelStep(m: Buckets, ideal: Buckets, maxKeys: int, e: Event, key: string, q: ValidQuota)
    requires Level(m, key, q, e.now) == Level(ideal, key, q, e.now) && Sound(m, e.now)
    requires e.Acquire? && Usable(e.quota) && e.key == key ==> e.quota == q
    requires !DropsEarly(m, maxKeys, e, key, q)
    ensures e.Acquire? && e.key == key ==> Step(m, maxKeys, e).1 == IdealStep(ideal, e).1
    ensures Level(Step(m, maxKeys, e).0, key, q, e.now) == Level(IdealStep(ideal, e).0, key, q, e.now)
  {
    if e.Acquire? && Usable(e.quota) {
      EvictionKeepsLevel(m, maxKeys, e, key, q);
      var kept := if MustEvict(m, maxKeys, e.key) then m - Dropped(m, e.now, e.quota.window, e.shed) else m;
      assert Step(m, maxKeys, e) == (Admit(kept, e.key, e.quota, e.now).0, Some(Admit(kept, e.key, e.quota, e.now).1));
      Unlimited(ideal, e);
      hide Step, IdealStep, Level, Dropped, MustEvict, DropsEarly, Sound;
      if e.key == key {
        SameAdmit(kept, ideal, key, q, e.now);
        LevelOf(Step(m, maxKeys, e).0, IdealStep(ideal, e).0, key, q, e.now);
      } else {
        LevelOf(Step(m, maxKeys, e).0, kept, key, q, e.now);
        LevelOf(IdealStep(ideal, e).0, ideal, key, q, e.now);
      }
    } else if e.Reset? && e.key != key {
      hide Level;
      LevelOf(Step(m, maxKeys, e).0, m, key, q, e.now);
      LevelOf(IdealStep(ideal, e).0, ideal, key, q, e.now);
    } else if e.Reset? {
      hide Refilled;
    }
  }

  lemma Unlimited(m: Buckets, e: Event)
    requires e.Acquire? && Usable(e.quota)
    ensures IdealStep(m, e) == (Admit(m, e.key, e.quota, e.now).0, Some(Admit(m, e.key, e.quota, e.now).1))
  {
    hide Admit;
  }

  lemma SameLevelAfter(m: Buckets, ideal: Buckets, maxKeys: int, e: Event, key: string, q: ValidQuota, now: real)
    requires Level(m, key, q, e.now) == Level(ideal, key, q, e.now) && Sound(m, e.now) && e.now <= now
    requires e.Acquire? && Usable(e.quota) && e.key == key ==> e.quota == q
    requires !DropsEarly(m, maxKeys, e, key, q)
    ensures Level(Step(m, maxKeys, e).0, key, q, now) == Level(IdealStep(ideal, e).0, key, q, now)
  {
    hide Level, Step, IdealStep, Refill, DropsEarly, Sound;
    SameLevelStep(m, ideal, maxKeys, e, key, q);
    LevelLater(Step(m, maxKeys, e).0, key, q, e.now, now);
    LevelLater(IdealStep(ideal, e).0, key, q, e.now, now);
  }

  lemma IdealRunStep(es: seq<Event>, i: nat)
    requires i < |es|
    ensures IdealRun(es[..i + 1]) == IdealStep(IdealRun(es[..i]), es[i]).0
  {
    assert es[..i + 1][..i] == es[..i];
  }

  lemma {:induction false} SameLevelRun(maxKeys: int, es: seq<Event>, n: nat, key: string, q: ValidQuota, now: real)
    requires Legal(maxKeys, es) && KeepsQuota(es, key, q) && n <= |es| && NeverDropsEarly(maxKeys, es, n, key, q)
    requires forall i :: 0 <= i < n ==> es[i].now <= now
    ensures Level(Run(maxKeys, es[..n]), key, q, now) == Level(IdealRun(es[..n]), key, q, now)
  {
    if n > 0 {
      hide Refill, Level, Step, IdealStep, DropsEarly, Sound, Possible, Run, IdealRun;
      var e := es[n - 1];
      SameLevelRun(maxKeys, es, n - 1, key, q, e.now);
      RunSound(maxKeys, es, n - 1, e.now);
      RunStep(maxKeys, es, n - 1);
      IdealRunStep(es, n - 1);
      SameLevelAfter(Run(maxKeys, es[..n - 1]), IdealRun(es[..n - 1]), maxKeys, e, key, q, now);
    } else {
      assert es[..0] == [];
    }
  }

  /** A key whose bucket is never dropped early is answered exactly as by a limiter that never forgets. */
  lemma {:induction false} AnswersAreIdeal(maxKeys: int, es: seq<Event>, n: nat, key: string, q: ValidQuota)
    requires Legal(maxKeys, es) && KeepsQuota(es, key, q) && n < |es| && NeverDropsEarly(maxKeys, es, n, key, q)
    requires es[n].Acquire? && es[n].key == key
    ensures Answer(maxKeys, es, n) == IdealAnswer(es, n)
  {
    hide Refill, Level, Step, IdealStep, Run, IdealRun;
    SameLevelRun(maxKeys, es, n, key, q, es[n].now);
    RunSound(maxKeys, es, n, es[n].now);
    assert !DropsEarly(Run(maxKeys, es[..n]), maxKeys, es[n], key, q);
    SameLevelStep(Run(maxKeys, es[..n]), IdealRun(es[..n]), maxKeys, es[n], key, q);
  }

  predicate EvictsAsStale(m: Buckets, maxKeys: int, e: Event, key: string) {
    e.Acquire? && Usable(e.quota) && MustEvict(m, maxKeys, e.key) && key in Stale(m, e.now, e.quota.window)
  }

  /** Each key keeps a quota of its own; no stale eviction is made by a caller with a shorter window than the dropped key's. */
  ghost predicate PatientCallers(maxKeys: int, es: seq<Event>, n: nat, quotas: string -> ValidQuota)
    requires n <= |es|
  {
    forall i, k :: 0 <= i < n && EvictsAsStale(Run(maxKeys, es[..i]), maxKeys, es[i], k) ==> es[i].quota.window >= quotas(k).window
  }

  /**
   * If nobody's stale eviction drops a key used with a longer window, forgetting is unobservable: every answer,
   * to every key, is the one an unbounded limiter would give, until the first oldest-tenth shed.
   */
  lemma {:induction false} EvictionIsUnobservable(maxKeys: int, es: seq<Event>, n: nat, quotas: string -> ValidQuota)
    requires Legal(maxKeys, es) && n < |es| && es[n].Acquire?
    requires forall k :: KeepsQuota(es, k, quotas(k))
    requires PatientCallers(maxKeys, es, n, quotas)
    requires forall i :: 0 <= i < n ==> !Sheds(Run(maxKeys, es[..i]), maxKeys, es[i])
    ensures Answer(maxKeys, es, n) == IdealAnswer(es, n)
  {
    hide Run, IdealRun, Step, IdealStep, Refill, Level, Legal;
    var key := es[n].key;
    forall i | 0 <= i < n
      ensures !DropsEarly(Run(maxKeys, es[..i]), maxKeys, es[i], key, quotas(key))
    {
      assert !Sheds(Run(maxKeys, es[..i]), maxKeys, es[i]);
      assert EvictsAsStale(Run(maxKeys, es[..i]), maxKeys, es[i], key) ==> es[i].quota.window >= quotas(key).window;
    }
    AnswersAreIdeal(maxKeys, es, n, key, quotas(key));
  }

  // ---------------------------------------------------------------- exactly when forgetting is unobservable

  /** `key` keeps its quota, and everybody else a window of `window` seconds. */
  ghost predicate TwoWindows(es: seq<Event>, key: string, q: Quota, window: int) {
    KeepsQuota(es, key, q)
    && forall i :: 0 <= i < |es| && es[i].Acquire? && Usable(es[i].quota) && es[i].key != key ==> es[i].quota.window == window
  }

  ghost predicate Quiet(maxKeys: int, es: seq<Event>, n: nat)
    requires n <= |es|
  {
    forall i :: 0 <= i < n ==> !Sheds(Run(maxKeys, es[..i]), maxKeys, es[i])
  }

  /** The two limiters agree on the n-th call: on everything they say, or on granting it. */
  predicate SameAnswer(maxKeys: int, es: seq<Event>, n: nat)
    requires n < |es|
  {
    Answer(maxKeys, es, n) == IdealAnswer(es, n)
  }

  predicate SameDecision(maxKeys: int, es: seq<Event>, n: nat)
    requires n < |es|
  {
    var a, b := Answer(maxKeys, es, n), IdealAnswer(es, n);
    a == b || (a.Some? && b.Some? && a.value.allowed == b.value.allowed)
  }

  /** A legal run of two-window callers, without a shed before the n-th call, which is the key's. */
  ghost predicate Asking(maxKeys: int, es: seq<Event>, n: nat, q: Quota, window: int) {
    n < |es| && Legal(maxKeys, es) && TwoWindows(es, "a", q, window) && Quiet(maxKeys, es, n) && es[n].Acquire? && es[n].key == "a"
  }

  /**
   * Among callers with two windows, answers to a key are those of the unbounded limiter in every run without an
   * oldest-tenth shed if and only if the others' window is at least as long as the key's own; and so are the bare
   * decisions to grant or deny.
   */
  lemma UnobservableExactlyWhen(q: ValidQuota, window: int)
    requires window > 0
    ensures (forall maxKeys, es, n :: Asking(maxKeys, es, n, q, window) ==> SameAnswer(maxKeys, es, n)) <==> window >= q.window
    ensures (forall maxKeys, es, n :: Asking(maxKeys, es, n, q, window) ==> SameDecision(maxKeys, es, n)) <==> window >= q.window
  {
    hide Answer, IdealAnswer;
    if window >= q.window {
      forall maxKeys, es, n | Asking(maxKeys, es, n, q, window)
        ensures SameAnswer(maxKeys, es, n) && SameDecision(maxKeys, es, n)
      {
        LongWindowsDropNothingEarly(maxKeys, es, n, q, window);
        AnswersAreIdeal(maxKeys, es, n, "a", q);
      }
    } else {
      var es, n := ForgottenTooSoon(q, window);
      assert Asking(2, es, n, q, window) && !SameDecision(2, es, n) && !SameAnswer(2, es, n);
    }
  }

  lemma LongWindowsDropNothingEarly(maxKeys: int, es: seq<Event>, n: nat, q: ValidQuota, window: int)
    requires n < |es| && TwoWindows(es, "a", q, window) && Quiet(maxKeys, es, n) && window >= q.window
    ensures NeverDropsEarly(maxKeys, es, n, "a", q)
  {
    hide Run;
    forall i | 0 <= i < n
      ensures !DropsEarly(Run(maxKeys, es[..i]), maxKeys, es[i], "a", q)
    {
      assert !Sheds(Run(maxKeys, es[..i]), maxKeys, es[i]);
    }
  }

  // ---------------------------------------------------------------- a run in which it is observable

  function Asks(key: string, q: Quota, now: real): Event {
    Acquire(key, q, now, {})
  }

  /** `n` calls on `a` at time zero. */
  function Burst(q: Quota, n: nat): seq<Event> {
    if n == 0 then [] else Burst(q, n - 1) + [Asks("a", q, 0.0)]
  }

  /** `a` spends its whole bucket, `c` fills the map, `b` evicts on the short window. */
  function Forgotten(q: ValidQuota, window: int): seq<Event> {
    Burst(q, q.limit) + [Asks("c", Quota(1, window), 0.0)] + [Asks("b", Quota(1, window), q.window as real - 0.5)]
  }

  /** Both limiters, side by side, after a run of two-window calls without a shed. */
  ghost predicate Reaches(es: seq<Event>, q: Quota, window: int, m: Buckets, ideal: Buckets, now: real) {
    Legal(2, es) && TwoWindows(es, "a", q, window) && Quiet(2, es, |es|)
    && Run(2, es) == m && IdealRun(es) == ideal && forall i :: 0 <= i < |es| ==> es[i].now <= now
  }

  lemma Prefixes(es: seq<Event>, e: Event)
    ensures forall i :: 0 <= i <= |es| ==> (es + [e])[..i] == es[..i]
    ensures es[..|es|] == es
  {
  }

  lemma LegalNext(maxKeys: int, es: seq<Event>, e: Event)
    requires Legal(maxKeys, es) && !Sheds(Run(maxKeys, es), maxKeys, e) && forall i :: 0 <= i < |es| ==> es[i].now <= e.now
    ensures Legal(maxKeys, es + [e])
  {
    hide Run, Sheds;
    Prefixes(es, e);
    var fs := es + [e];
    forall i | 0 <= i < |fs|
      ensures Possible(Run(maxKeys, fs[..i]), maxKeys, fs[i])
    {
      if i < |es| {
        assert Possible(Run(maxKeys, es[..i]), maxKeys, es[i]);
      }
    }
  }

  lemma QuietNext(maxKeys: int, es: seq<Event>, e: Event)
    requires Quiet(maxKeys, es, |es|) && !Sheds(Run(maxKeys, es), maxKeys, e)
    ensures Quiet(maxKeys, es + [e], |es|) && Quiet(maxKeys, es + [e], |es| + 1)
  {
    hide Run, Sheds;
    Prefixes(es, e);
    var fs := es + [e];
    forall i | 0 <= i < |fs|
      ensures !Sheds(Run(maxKeys, fs[..i]), maxKeys, fs[i])
    {
      if i < |es| {
        assert !Sheds(Run(maxKeys, es[..i]), maxKeys, es[i]);
      }
    }
  }

  lemma RunNext(maxKeys: int, es: seq<Event>, e: Event)
    ensures Run(maxKeys, es + [e]) == Step(Run(maxKeys, es), maxKeys, e).0
    ensures IdealRun(es + [e]) == IdealStep(IdealRun(es), e).0
  {
    hide Step, IdealStep;
    assert (es + [e])[..|es + [e]| - 1] == es;
  }

  lemma TwoWindowsNext(es: seq<Event>, key: string, q: Quota, window: int, e: Event)
    requires TwoWindows(es, key, q, window) && e.Acquire?
    requires if e.key == key then e.quota == q else e.quota.window == window
    ensures TwoWindows(es + [e], key, q, window)
  {
  }

  lemma ReachesNext(es: seq<Event>, q: ValidQuota, window: int, m: Buckets, ideal: Buckets, now: real, e: Event)
    requires Reaches(es, q, window, m, ideal, now) && now <= e.now && e.Acquire?
    requires if e.key == "a" then e.quota == q else e.quota.window == window
    requires !Sheds(m, 2, e)
    ensures Reaches(es + [e], q, window, Step(m, 2, e).0, IdealStep(ideal, e).0, e.now)
    ensures Quiet(2, es + [e], |es|)
  {
    hide Step, IdealStep, Sheds, Legal, Quiet, Run, IdealRun, TwoWindows;
    RunNext(2, es, e);
    LegalNext(2, es, e);
    QuietNext(2, es, e);
    TwoWindowsNext(es, "a", q, window, e);
  }

  lemma AdmitFull(q: ValidQuota, key: string, m: Buckets, now: real)
    requires key !in m
    ensures Admit(m, key, q, now).0 == m[key := Bucket(q.limit as real - 1.0, now)]
  {
  }

  lemma NoTimeNoRefill(b: Bucket, q: ValidQuota)
    requires b.tokens <= q.limit as real
    ensures Refilled(b, q, b.updatedAt) == b.tokens
  {
    assert Refill(q, 0.0) == 0.0;
  }

  /** One bucket is not two: nothing is evicted. */
  lemma NoEviction(m: Buckets, e: Event)
    requires |m| < 2 && e.Acquire? && Usable(e.quota)
    ensures !Sheds(m, 2, e) && Step(m, 2, e) == (Admit(m, e.key, e.quota, e.now).0, Some(Admit(m, e.key, e.quota, e.now).1))
  {
  }

  lemma DrainStep(q: ValidQuota, left: nat)
    requires 1 <= left <= q.limit
    ensures
      var m, m' := map["a" := Bucket(left as real, 0.0)], map["a" := Bucket((left - 1) as real, 0.0)];
      !Sheds(m, 2, Asks("a", q, 0.0)) && Step(m, 2, Asks("a", q, 0.0)).0 == m' && IdealStep(m, Asks("a", q, 0.0)).0 == m'
  {
    var b := Bucket(left as real, 0.0);
    var m := map["a" := b];
    NoTimeNoRefill(b, q);
    NoEviction(m, Asks("a", q, 0.0));
    Unlimited(m, Asks("a", q, 0.0));
    hide Refilled, Step, IdealStep, Sheds;
    assert m["a" := Bucket((left - 1) as real, 0.0)] == map["a" := Bucket((left - 1) as real, 0.0)];
  }

  lemma FirstStep(q: ValidQuota)
    ensures
      var m' := map["a" := Bucket((q.limit - 1) as real, 0.0)];
      !Sheds(map[], 2, Asks("a", q, 0.0)) && Step(map[], 2, Asks("a", q, 0.0)).0 == m' && IdealStep(map[], Asks("a", q, 0.0)).0 == m'
  {
    AdmitFull(q, "a", map[], 0.0);
    NoEviction(map[], Asks("a", q, 0.0));
    Unlimited(map[], Asks("a", q, 0.0));
  }

  lemma BurstBegins(q: ValidQuota, window: int)
    ensures Reaches(Burst(q, 1), q, window, map["a" := Bucket((q.limit - 1) as real, 0.0)], map["a" := Bucket((q.limit - 1) as real, 0.0)], 0.0)
  {
    assert Burst(q, 0) == [] && Burst(q, 1) == [] + [Asks("a", q, 0.0)];
    assert Reaches([], q, window, map[], map[], 0.0);
    hide Reaches, Step, IdealStep, Sheds;
    FirstStep(q);
    ReachesNext([], q, window, map[], map[], 0.0, Asks("a", q, 0.0));
  }

  lemma {:induction false} BurstDrains(q: ValidQuota, window: int, n: nat)
    requires 1 <= n <= q.limit
    ensures Reaches(Burst(q, n), q, window, map["a" := Bucket((q.limit - n) as real, 0.0)], map["a" := Bucket((q.limit - n) as real, 0.0)], 0.0)
  {
    hide Reaches, Step, IdealStep, Sheds;
    if n == 1 {
      BurstBegins(q, window);
    } else {
      BurstDrains(q, window, n - 1);
      var left := q.limit - (n - 1);
      DrainStep(q, left);
      var m := map["a" := Bucket(left as real, 0.0)];
      assert left - 1 == q.limit - n;
      ReachesNext(Burst(q, n - 1), q, window, m, m, 0.0, Asks("a", q, 0.0));
    }
  }

  /** `b` drops the other two: for its short window they are stale. */
  lemma ShortWindowDrops(q: ValidQuota, window: int, later: real)
    requires 0 < window && later > window as real
    ensures
      var m := map["a" := Bucket(0.0, 0.0), "c" := Bucket(0.0, 0.0)];
      var b := Asks("b", Quota(1, window), later);
      !Sheds(m, 2, b) && Step(m, 2, b).0 == map["b" := Bucket(0.0, later)]
      && IdealStep(m, b).0 == m["b" := Bucket(0.0, later)]
  {
    hide Refilled;
    var m := map["a" := Bucket(0.0, 0.0), "c" := Bucket(0.0, 0.0)];
    assert Stale(m, later, window) == {"a", "c"};
    assert m - {"a", "c"} == map[];
    assert |m| == 2 by {
      assert m.Keys == {"a", "c"};
    }
    AdmitFull(Quota(1, window), "b", map[], later);
    AdmitFull(Quota(1, window), "b", m, later);
  }

  const DRAINED := map["a" := Bucket(0.0, 0.0)]
  const BOTH := map["a" := Bucket(0.0, 0.0), "c" := Bucket(0.0, 0.0)]

  lemma SecondKey(window: int)
    requires 0 < window
    ensures
      var c := Asks("c", Quota(1, window), 0.0);
      !Sheds(DRAINED, 2, c) && Step(DRAINED, 2, c).0 == BOTH && IdealStep(DRAINED, c).0 == BOTH
  {
    var c := Asks("c", Quota(1, window), 0.0);
    NoEviction(DRAINED, c);
    Unlimited(DRAINED, c);
    AdmitFull(Quota(1, window), "c", DRAINED, 0.0);
    hide Admit, Step, IdealStep;
    assert DRAINED["c" := Bucket(0.0, 0.0)] == BOTH;
  }

  lemma ForgottenReaches(q: ValidQuota, window: int)
    requires 0 < window < q.window
    ensures
      var later := q.window as real - 0.5;
      Reaches(Forgotten(q, window), q, window, map["b" := Bucket(0.0, later)], BOTH["b" := Bucket(0.0, later)], later)
  {
    hide Reaches, Step, IdealStep, Sheds, Burst;
    var later := q.window as real - 0.5;
    BurstDrains(q, window, q.limit);
    SecondKey(window);
    ShortWindowDrops(q, window, later);
    ReachesNext(Burst(q, q.limit), q, window, DRAINED, DRAINED, 0.0, Asks("c", Quota(1, window), 0.0));
    ReachesNext(Burst(q, q.limit) + [Asks("c", Quota(1, window), 0.0)], q, window, BOTH, BOTH, 0.0, Asks("b", Quota(1, window), later));
  }

  /** `n` more calls on `a`, all at the same moment. */
  function Asked(es: seq<Event>, q: Quota, now: real, n: nat): seq<Event> {
    if n == 0 then es else Asked(es, q, now, n - 1) + [Asks("a", q, now)]
  }

  /** A call spends a whole token if there is one. */
  lemma AskSpends(m: Buckets, q: ValidQuota, now: real)
    ensures
      var x, m' := Level(m, "a", q, now), Admit(m, "a", q, now).0;
      "a" in m' && m'.Keys == m.Keys + {"a"} && Level(m', "a", q, now) == (if x >= 1.0 then x - 1.0 else x)
      && (Admit(m, "a", q, now).1.allowed <==> x >= 1.0)
  {
    LevelBelowLimit(m, "a", q, now);
    var m' := Admit(m, "a", q, now).0;
    hide RetryAfter, Level;
    NoTimeNoRefill(m'["a"], q);
    LevelAtTouch(m', "a", q);
  }

  /** The map has room for `a`, or has it already: a call on it evicts nothing. */
  predicate HasRoom(m: Buckets) {
    "a" in m || |m| < 2
  }

  lemma RoomStays(m: Buckets, q: ValidQuota, now: real)
    requires HasRoom(m)
    ensures !Sheds(m, 2, Asks("a", q, now))
    ensures Step(m, 2, Asks("a", q, now)) == (Admit(m, "a", q, now).0, Some(Admit(m, "a", q, now).1))
    ensures HasRoom(Admit(m, "a", q, now).0)
  {
  }

  /** While the forgetful limiter spends a full bucket, the other one is always a little behind. */
  lemma {:induction false} AskedDiverges(q: ValidQuota, window: int, n: nat) returns (m: Buckets, ideal: Buckets)
    requires 0 < window < q.window && n < q.limit
    ensures
      var later := q.window as real - 0.5;
      Reaches(Asked(Forgotten(q, window), q, later, n), q, window, m, ideal, later) && HasRoom(m)
      && Level(m, "a", q, later) == (q.limit - n) as real && Level(ideal, "a", q, later) < (q.limit - n) as real
  {
    hide Reaches, Forgotten, Level, Step, IdealStep, Sheds, Admit, HasRoom;
    var later := q.window as real - 0.5;
    if n == 0 {
      m, ideal := map["b" := Bucket(0.0, later)], BOTH["b" := Bucket(0.0, later)];
      ForgottenReaches(q, window);
      LevelsApart(q, later);
    } else {
      var k, j := AskedDiverges(q, window, n - 1);
      RoomStays(k, q, later);
      Unlimited(j, Asks("a", q, later));
      AskSpends(k, q, later);
      AskSpends(j, q, later);
      ReachesNext(Asked(Forgotten(q, window), q, later, n - 1), q, window, k, j, later, Asks("a", q, later));
      m, ideal := Step(k, 2, Asks("a", q, later)).0, IdealStep(j, Asks("a", q, later)).0;
      OneFewer(q.limit, n, Level(k, "a", q, later), Level(j, "a", q, later));
    }
  }

  lemma LevelsApart(q: ValidQuota, later: real)
    requires later == q.window as real - 0.5
    ensures
      var m, ideal := map["b" := Bucket(0.0, later)], BOTH["b" := Bucket(0.0, later)];
      HasRoom(m) && Level(m, "a", q, later) == q.limit as real && Level(ideal, "a", q, later) < q.limit as real
  {
    RefillHalf(q);
    hide Refill;
    var m := map["b" := Bucket(0.0, later)];
    assert |m| == 1;
  }

  lemma OneFewer(limit: int, n: nat, x: real, y: real)
    requires 0 < n < limit && x == (limit - (n - 1)) as real && y < (limit - (n - 1)) as real
    ensures x >= 1.0 && x - 1.0 == (limit - n) as real && (if y >= 1.0 then y - 1.0 else y) < (limit - n) as real
  {
  }

  /** When the evicting window is short, a call on `a` is granted that an unbounded limiter denies. */
  lemma ForgottenTooSoon(q: ValidQuota, window: int) returns (es: seq<Event>, n: nat)
    requires 0 < window < q.window
    ensures n < |es| && Legal(2, es) && TwoWindows(es, "a", q, window) && Quiet(2, es, n) && es[n].Acquire? && es[n].key == "a"
    ensures Answer(2, es, n).Some? && Answer(2, es, n).value.allowed
    ensures IdealAnswer(es, n).Some? && !IdealAnswer(es, n).value.allowed
  {
    var later := q.window as real - 0.5;
    var e := Asks("a", q, later);
    var m, ideal := AskedDiverges(q, window, q.limit - 1);
    var init := Asked(Forgotten(q, window), q, later, q.limit - 1);
    n := |init|;
    es := init + [e];
    hide Step, IdealStep, Sheds, Forgotten, Asked, Level, Admit, HasRoom;
    RoomStays(m, q, later);
    Unlimited(ideal, e);
    AskSpends(m, q, later);
    AskSpends(ideal, q, later);
    ReachesNext(init, q, window, m, ideal, later, e);
    hide Legal, TwoWindows;
    assert es[..n] == init && es[n] == e;
  }

  lemma RefillHalf(q: ValidQuota)
    ensures Refill(q, q.window as real - 0.5) < q.limit as real
  {
    RatePositive(q);
    assert (q.window as real - 0.5) * Rate(q) == q.window as real * Rate(q) - 0.5 * Rate(q);
  }

  // ---------------------------------------------------------------- the limiter itself

  ghost predicate ByAge(m: Buckets, keys: seq<string>) {
    (forall i :: 0 <= i < |keys| ==> keys[i] in m)
    && forall i, j :: 0 <= i < j < |keys| ==> keys[i] in m && keys[j] in m && m[keys[i]].updatedAt <= m[keys[j]].updatedAt
  }

  ghost predicate Distinct(keys: seq<string>) {
    forall i, j :: 0 <= i < j < |keys| ==> keys[i] != keys[j]
  }

  method OldestOf(m: Buckets, pool: set<string>) returns (oldest: string)
    requires pool != {} && pool <= m.Keys
    ensures oldest in pool && forall k :: k in pool ==> m[oldest].updatedAt <= m[k].updatedAt
  {
    oldest :| oldest in pool;
    var rest := pool - {oldest};
    while rest != {}
      invariant rest <= pool && oldest in pool
      invariant forall k :: k in pool - rest ==> m[oldest].updatedAt <= m[k].updatedAt
      decreases rest
    {
      var k :| k in rest;
      if m[k].updatedAt < m[oldest].updatedAt {
        oldest := k;
      }
      rest := rest - {k};
    }
  }

  /** All keys, oldest bucket first. */
  method SortedByAge(m: Buckets) returns (keys: seq<string>)
    ensures |keys| == |m| && Distinct(keys) && ByAge(m, keys)
    ensures forall k :: k in m <==> k in keys
  {
    keys := [];
    var rest := m.Keys;
    while rest != {}
      invariant rest <= m.Keys && |keys| + |rest| == |m|
      invariant Distinct(keys) && ByAge(m, keys)
      invariant forall k :: k in keys <==> k in m.Keys - rest
      invariant forall k, r :: k in keys && r in rest ==> m[k].updatedAt <= m[r].updatedAt
      decreases rest
    {
      var k := OldestOf(m, rest);
      keys := keys + [k];
      rest := rest - {k};
    }
  }

  /** The elements of the first `n` places of a sequence. */
  function Prefix(keys: seq<string>, n: nat): set<string>
    requires n <= |keys|
  {
    set k | k in keys[..n]
  }

  lemma PrefixGrows(keys: seq<string>, n: nat)
    requires n < |keys| && Distinct(keys)
    ensures Prefix(keys, n + 1) == Prefix(keys, n) + {keys[n]} && keys[n] !in Prefix(keys, n)
  {
    assert keys[..n + 1] == keys[..n] + [keys[n]];
  }

  lemma {:induction false} PrefixSize(keys: seq<string>, n: nat)
    requires n <= |keys| && Distinct(keys)
    ensures |Prefix(keys, n)| == n
  {
    if n > 0 {
      PrefixSize(keys, n - 1);
      PrefixGrows(keys, n - 1);
    }
  }

  lemma InPrefix(keys: seq<string>, n: nat, j: nat)
    requires n <= |keys| && j < |keys|
    ensures j < n ==> keys[j] in Prefix(keys, n)
  {
    if j < n {
      assert keys[..n][j] == keys[j];
    }
  }

  lemma PrefixIsOldest(m: Buckets, keys: seq<string>, n: nat)
    requires n <= |keys| && n == ShedCount(|m|)
    requires Distinct(keys) && ByAge(m, keys) && forall k :: k in m <==> k in keys
    ensures OldestTenth(m, Prefix(keys, n))
  {
    PrefixSize(keys, n);
    forall a, b | a in Prefix(keys, n) && b in m.Keys - Prefix(keys, n)
      ensures m[a].updatedAt <= m[b].updatedAt
    {
      var i :| 0 <= i < n && keys[i] == a;
      assert b in keys;
      var j: nat :| j < |keys| && keys[j] == b;
      InPrefix(keys, n, j);
    }
  }

  lemma NothingDropped(m: Buckets, keys: seq<string>)
    ensures m - Prefix(keys, 0) == m
  {
  }

  lemma DropOneMore(m: Buckets, gone: set<string>, key: string)
    ensures m - gone - {key} == m - (gone + {key})
  {
  }

  class InMemoryRateLimiter {
    var buckets: Buckets
    const maxKeys: int

    constructor (maxKeys: int)
      ensures buckets == map[] && this.maxKeys == maxKeys
    {
      buckets := map[];
      this.maxKeys := maxKeys;
    }

    /** Takes one token for `key`; `None` stands for the rejection of a quota that is not positive. */
    method Acquire(key: string, limit: int, window: int, now: real)
      returns (r: Option<Decision>, ghost shed: set<string>)
      modifies this
      ensures
        var e := Event.Acquire(key, Quota(limit, window), now, shed);
        Possible(old(buckets), maxKeys, e) && (buckets, r) == Step(old(buckets), maxKeys, e)
    {
      shed := {};
      if limit <= 0 || window <= 0 {
        return None, {};
      }
      ghost var q: ValidQuota := Quota(limit, window);
      var refillPerSecond := limit as real / window as real;
      assert refillPerSecond == Rate(q);
      hide Rate, Stale, OldestTenth, Dropped;
      var bucket: Bucket;
      if key !in buckets {
        if |buckets| >= maxKeys {
          shed := EvictStale(now, window);
        }
        bucket := Bucket(limit as real, now);
      } else {
        bucket := buckets[key];
        var elapsed := now - bucket.updatedAt;
        assert elapsed * refillPerSecond == Refill(q, elapsed);
        bucket := bucket.(tokens := Min(limit as real, bucket.tokens + elapsed * refillPerSecond));
        bucket := bucket.(updatedAt := now);
      }
      assert bucket == Bucket(Level(old(buckets), key, q, now), now);
      if bucket.tokens >= 1.0 {
        bucket := bucket.(tokens := bucket.tokens - 1.0);
        buckets := buckets[key := bucket];
        return Some(Decision(true, limit, bucket.tokens.Floor, 0)), shed;
      }
      buckets := buckets[key := bucket];
      var deficit := 1.0 - bucket.tokens;
      var seconds := (deficit / refillPerSecond).Floor + 1;
      return Some(Decision(false, limit, 0, if seconds > 1 then seconds else 1)), shed;
    }

    method ResetKey(key: string, now: real)
      modifies this
      ensures buckets == Step(old(buckets), maxKeys, Reset(key, now)).0
    {
      buckets := buckets - {key};
    }

    method EvictStale(now: real, window: int) returns (ghost shed: set<string>)
      modifies this
      ensures Stale(old(buckets), now, window) == {} ==> OldestTenth(old(buckets), shed)
      ensures buckets == old(buckets) - Dropped(old(buckets), now, window, shed)
    {
      ghost var before := buckets;
      shed := {};
      var cutoff := now - window as real;
      var stale := set k | k in buckets && buckets[k].updatedAt < cutoff;
      assert stale == Stale(before, now, window);
      hide Stale, OldestTenth;
      var rest := stale;
      while rest != {}
        invariant rest <= stale && buckets == before - (stale - rest)
        decreases rest
      {
        var k :| k in rest;
        buckets := buckets - {k};
        rest := rest - {k};
      }
      if stale == {} {
        assert buckets == before;
        shed := ShedOldest();
      }
    }

    method ShedOldest() returns (ghost shed: set<string>)
      modifies this
      ensures OldestTenth(old(buckets), shed) && buckets == old(buckets) - shed
    {
      ghost var before := buckets;
      var oldest := SortedByAge(buckets);
      var tenth := if |oldest| / 10 > 1 then |oldest| / 10 else 1;
      var count := if tenth < |oldest| then tenth else |oldest|;
      PrefixIsOldest(before, oldest, count);
      hide OldestTenth, ByAge, Distinct;
      NothingDropped(before, oldest);
      hide Prefix;
      for i := 0 to count
        invariant buckets == before - Prefix(oldest, i)
      {
        PrefixGrows(oldest, i);
        DropOneMore(before, Prefix(oldest, i), oldest[i]);
        buckets := buckets - {oldest[i]};
      }
      shed := Prefix(oldest, count);
    }
  }
}
