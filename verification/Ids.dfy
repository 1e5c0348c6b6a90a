/**
 * UUIDv7 identifiers: the monotonic (timestamp, counter) generator of section 6.2 of RFC 9562
 * and the 128-bit layout of section 5.7.
 *
 * The process-wide generator state is a value `Generator`; the class `IdSource` holds it the way
 * the module globals do. The wall clock and the operating system's entropy are parameters.
 */
module Ids {
  import opened Prelude

  const COUNTER_MAX := 4095
  const SEED_BOUND := 1024
  const TWO_14 := 0x4000
  const TWO_48 := 0x1_0000_0000_0000
  const TWO_62 := 0x4000_0000_0000_0000
  const TWO_64 := 0x1_0000_0000_0000_0000
  const TWO_76 := 0x1000_0000_0000_0000_0000
  const TWO_80 := 0x1_0000_0000_0000_0000_0000
  const TWO_128 := 0x1_0000_0000_0000_0000_0000_0000_0000_0000

  datatype Generator = Generator(lastMs: int, counter: nat)

  const INITIAL := Generator(-1, 0)

  /** One call's inputs: the wall clock in milliseconds, and two random bytes. */
  datatype Reading = Reading(now: int, entropy: nat)

  ghost predicate ValidReading(r: Reading) {
    r.entropy < 0x1_0000
  }

  predicate ValidGenerator(g: Generator) {
    g.counter <= COUNTER_MAX
  }

  /** The top ten of sixteen random bits. */
  function Seed(entropy: nat): nat {
    entropy / 64
  }

  function Next(g: Generator, r: Reading): Generator {
    if r.now > g.lastMs then Generator(r.now, Seed(r.entropy))
    else if g.counter >= COUNTER_MAX then Generator(g.lastMs + 1, Seed(r.entropy))
    else Generator(g.lastMs, g.counter + 1)
  }

  predicate Before(g: Generator, h: Generator) {
    g.lastMs < h.lastMs || (g.lastMs == h.lastMs && g.counter < h.counter)
  }

  /** The state after serving all of `rs`. */
  function After(g: Generator, rs: seq<Reading>): Generator {
    if rs == [] then g else Next(After(g, rs[..|rs| - 1]), rs[|rs| - 1])
  }

  /** The largest clock reading so far; the generator starts as if it had read -1. */
  function MaxReading(rs: seq<Reading>): int {
    if rs == [] then -1
    else
      var m := MaxReading(rs[..|rs| - 1]);
      if rs[|rs| - 1].now > m then rs[|rs| - 1].now else m
  }

  ghost predicate ValidReadings(rs: seq<Reading>) {
    forall i :: 0 <= i < |rs| ==> ValidReading(rs[i])
  }

  // ---------------------------------------------------------------- the counter over whole runs

  /** The counter always fits its twelve bits, and the timestamp is never behind the clock. */
  lemma {:induction false} ReachableIsValid(rs: seq<Reading>)
    requires ValidReadings(rs)
    ensures ValidGenerator(After(INITIAL, rs)) && MaxReading(rs) <= After(INITIAL, rs).lastMs
  {
    if rs != [] {
      ReachableIsValid(rs[..|rs| - 1]);
    }
  }

  /** Later calls always return a larger pair, whatever the clock does. */
  lemma {:induction false} StrictlyIncreasing(rs: seq<Reading>, i: nat, j: nat)
    requires ValidReadings(rs)
    requires 0 < i < j <= |rs|
    ensures Before(After(INITIAL, rs[..i]), After(INITIAL, rs[..j]))
    decreases j
  {
    ReachableIsValid(rs[..j - 1]);
    assert rs[..j][..j - 1] == rs[..j - 1];
    if i < j - 1 {
      StrictlyIncreasing(rs, i, j - 1);
    }
  }

  /** Slack left before the generator would have to run further ahead of the clock. */
  lemma {:induction false} DriftPotential(rs: seq<Reading>)
    requires ValidReadings(rs)
    requires rs != []
    ensures
      var g := After(INITIAL, rs);
      MaxReading(rs) <= g.lastMs
      && 3073 * (g.lastMs - MaxReading(rs)) + (if g.counter >= SEED_BOUND then g.counter - (SEED_BOUND - 1) else 0) <= |rs| - 1
  {
    var init := rs[..|rs| - 1];
    if init != [] {
      DriftPotential(init);
      ReachableIsValid(init);
    }
  }

  /** The stored timestamp runs ahead of the clock by at most one millisecond per 3073 calls. */
  lemma DriftBound(rs: seq<Reading>)
    requires ValidReadings(rs)
    requires rs != []
    ensures MaxReading(rs) <= After(INITIAL, rs).lastMs <= MaxReading(rs) + (|rs| - 1) / 3073
  {
    DriftPotential(rs);
  }

  /** The same reading, over and over: a stopped clock and the worst seed. */
  function Stuck(now: nat, n: nat): seq<Reading> {
    seq(n, _ => Reading(now, 0xFFFF))
  }

  lemma {:induction false} StuckClock(now: nat, n: nat)
    requires n > 0
    ensures After(INITIAL, Stuck(now, n)) == Generator(now + (n - 1) / 3073, 1023 + (n - 1) % 3073)
  {
    assert Stuck(now, n)[..n - 1] == Stuck(now, n - 1);
    if n > 1 {
      StuckClock(now, n - 1);
    } else {
      assert After(INITIAL, Stuck(now, 0)) == INITIAL;
    }
  }

  lemma {:induction false} StuckReading(now: nat, n: nat)
    requires n > 0
    ensures MaxReading(Stuck(now, n)) == now
  {
    assert Stuck(now, n)[..n - 1] == Stuck(now, n - 1);
    if n > 1 {
      StuckReading(now, n - 1);
    } else {
      assert MaxReading(Stuck(now, 0)) == -1;
    }
  }

  /** The drift bound cannot be improved: a stopped clock attains it after every number of calls. */
  lemma DriftBoundIsAttained(now: nat, n: nat)
    requires n > 0
    ensures ValidReadings(Stuck(now, n))
    ensures After(INITIAL, Stuck(now, n)).lastMs == MaxReading(Stuck(now, n)) + (n - 1) / 3073
  {
    StuckClock(now, n);
    StuckReading(now, n);
  }

  // ---------------------------------------------------------------- bitwise operators on naturals

  /** `|` on unbounded non-negative integers, bit by bit. */
  function BitOr(a: nat, b: nat): nat
    decreases a + b
  {
    if a == 0 then b
    else if b == 0 then a
    else 2 * BitOr(a / 2, b / 2) + (if a % 2 == 1 || b % 2 == 1 then 1 else 0)
  }

  /** `&` on unbounded non-negative integers, bit by bit. */
  function BitAnd(a: nat, b: nat): nat {
    if a == 0 || b == 0 then 0
    else 2 * BitAnd(a / 2, b / 2) + (if a % 2 == 1 && b % 2 == 1 then 1 else 0)
  }

  function Shl(a: nat, k: nat): nat {
    a * Pow2(k)
  }

  function Quotient(a: nat, d: nat): nat
    requires d > 0
  {
    a / d
  }

  function Shr(a: nat, k: nat): nat {
    Quotient(a, Pow2(k))
  }

  /** Or-ing a value into the zero bits below a shifted one adds it. */
  lemma {:induction false} OrDisjoint(a: nat, b: nat, k: nat)
    requires b < Pow2(k)
    ensures BitOr(Shl(a, k), b) == Shl(a, k) + b
  {
    if k > 0 && a > 0 && b > 0 {
      assert Shl(a, k) == 2 * Shl(a, k - 1);
      assert Shl(a, k) > 0;
      OrDisjoint(a, b / 2, k - 1);
    }
  }

  lemma MulMonotone(a: nat, b: nat, d: nat)
    requires a <= b
    ensures a * d <= b * d
  {
  }

  /** A number splits into quotient and remainder in only one way. */
  lemma SplitUnique(hi: nat, lo: nat, q: nat, r: nat, d: nat)
    requires lo < d && r < d && hi * d + lo == q * d + r
    ensures hi == q && lo == r
  {
    if hi < q {
      MulMonotone(hi + 1, q, d);
    } else if q < hi {
      MulMonotone(q + 1, hi, d);
    }
  }

  lemma SplitAt(hi: nat, lo: nat, d: nat)
    requires lo < d
    ensures (hi * d + lo) / d == hi && (hi * d + lo) % d == lo
  {
    var n := hi * d + lo;
    var q, r := n / d, n % d;
    assert n == d * q + r;
    SplitUnique(hi, lo, q, r, d);
  }

  lemma Halve(hi: nat, lo: nat, p: nat)
    ensures (hi * (2 * p) + lo) / 2 == hi * p + lo / 2 && (hi * (2 * p) + lo) % 2 == lo % 2
  {
    assert hi * (2 * p) == 2 * (hi * p);
  }

  /** One step of masking with an odd mask. */
  lemma MaskBit(a: nat, mask: nat)
    requires mask % 2 == 1
    ensures BitAnd(a, mask) == 2 * BitAnd(a / 2, mask / 2) + a % 2
  {
  }

  lemma {:induction false} AndMaskSplit(hi: nat, lo: nat, k: nat)
    requires lo < Pow2(k)
    ensures BitAnd(hi * Pow2(k) + lo, Pow2(k) - 1) == lo
  {
    if k > 0 {
      var p := Pow2(k - 1);
      AndMaskSplit(hi, lo / 2, k - 1);
      Halve(hi, lo, p);
      MaskBit(hi * Pow2(k) + lo, 2 * p - 1);
    }
  }

  lemma DivMod(a: nat, d: nat)
    requires d > 0
    ensures a == Quotient(a, d) * d + a % d && 0 <= a % d < d
  {
  }

  /** Masking with 2^k - 1 takes the remainder. */
  lemma AndMask(a: nat, k: nat)
    ensures BitAnd(a, Pow2(k) - 1) == a % Pow2(k)
  {
    hide Pow2, BitAnd;
    var p := Pow2(k);
    DivMod(a, p);
    AndMaskSplit(Quotient(a, p), a % p, k);
  }

  lemma {:induction false} PowAdd(j: nat, k: nat)
    ensures Pow2(j + k) == Pow2(j) * Pow2(k)
  {
    if j > 0 {
      PowAdd(j - 1, k);
    }
  }

  lemma Constants()
    ensures Pow2(12) == 0x1000 && Pow2(14) == TWO_14 && Pow2(16) == 0x1_0000 && Pow2(48) == TWO_48
    ensures Pow2(62) == TWO_62 && Pow2(64) == TWO_64 && Pow2(80) == TWO_80
  {
    assert Pow2(2) == 4 && Pow2(6) == 64;
    PowAdd(6, 6);
    PowAdd(2, 12);
    PowAdd(2, 14);
    PowAdd(16, 16);
    PowAdd(16, 32);
    PowAdd(14, 48);
    PowAdd(16, 48);
    PowAdd(16, 64);
  }

  // ---------------------------------------------------------------- the 128-bit layout

  /** The four shifted ors that build the integer of a UUIDv7. */
  function Assemble(ts: nat, randA: nat, randB: nat): nat {
    var v0 := Shl(ts, 80);
    var v1 := BitOr(v0, Shl(BitOr(0x7000, randA), 64));
    var v2 := BitOr(v1, Shl(BitOr(0x8000, Shr(randB, 48)), 48));
    BitOr(v2, BitAnd(randB, Pow2(48) - 1))
  }

  /** What the bits of a version 7 identifier say, read off arithmetically. */
  function TimestampField(v: nat): nat { v / TWO_80 }
  function VersionField(v: nat): nat { v / TWO_76 % 16 }
  function CounterField(v: nat): nat { v / TWO_64 % 0x1000 }
  function VariantField(v: nat): nat { v / TWO_62 % 4 }
  function RandomField(v: nat): nat { v % TWO_62 }

  /** The integer of section 5.7: six fields side by side. */
  function Layout(ts: nat, randA: nat, randB: nat): nat {
    ts * TWO_80 + 0x7 * TWO_76 + randA * TWO_64 + 2 * TWO_62 + randB
  }

  /** Or-ing in a field below bit k, with the power of two written out. */
  lemma OrField(hi: nat, lo: nat, k: nat, p: nat)
    requires p == Pow2(k) && lo < p
    ensures Shl(hi, k) == hi * p && BitOr(hi * p, lo) == hi * p + lo
  {
    OrDisjoint(hi, lo, k);
  }

  lemma ShlConst(a: nat)
    ensures Shl(a, 80) == a * TWO_80 && Shl(a, 64) == a * TWO_64 && Shl(a, 48) == a * TWO_48
    ensures Shr(a, 48) == a / TWO_48
    ensures BitAnd(a, Pow2(48) - 1) == a % TWO_48
  {
    hide Pow2, BitAnd;
    Constants();
    AndMask(a, 48);
  }

  /** Or-ing three fields below a shifted one, 64, 48 and 0 bits up, adds them. */
  lemma OrLayers(ts: nat, a: nat, b: nat, lo: nat)
    requires a < 0x1_0000 && b < 0x1_0000 && lo < TWO_48
    ensures BitOr(BitOr(BitOr(ts * TWO_80, a * TWO_64), b * TWO_48), lo)
            == ts * TWO_80 + a * TWO_64 + b * TWO_48 + lo
  {
    hide Pow2, BitOr, Shl;
    var v1 := ts * 0x1_0000 + a;
    var v2 := v1 * 0x1_0000 + b;
    Constants();
    OrField(ts, a * TWO_64, 80, TWO_80);
    assert ts * TWO_80 + a * TWO_64 == v1 * TWO_64;
    OrField(v1, b * TWO_48, 64, TWO_64);
    assert v1 * TWO_64 + b * TWO_48 == v2 * TWO_48;
    OrField(v2, lo, 48, TWO_48);
  }

  lemma Marks(randA: nat, hi: nat)
    requires randA < 0x1000 && hi < TWO_14
    ensures BitOr(0x7000, randA) == 0x7000 + randA && BitOr(0x8000, hi) == 0x8000 + hi
  {
    hide Pow2, BitOr, Shl;
    Constants();
    OrField(7, randA, 12, 0x1000);
    OrField(2, hi, 14, TWO_14);
  }

  lemma AssembleOrs(ts: nat, randA: nat, randB: nat)
    ensures Assemble(ts, randA, randB)
            == BitOr(BitOr(BitOr(ts * TWO_80, BitOr(0x7000, randA) * TWO_64), BitOr(0x8000, randB / TWO_48) * TWO_48),
                     randB % TWO_48)
  {
    hide Pow2, BitOr, BitAnd, Shl, Shr;
    ShlConst(ts);
    ShlConst(BitOr(0x7000, randA));
    ShlConst(BitOr(0x8000, randB / TWO_48));
    ShlConst(randB);
  }

  lemma AssembleSum(ts: nat, randA: nat, randB: nat)
    requires randA <= COUNTER_MAX && randB < TWO_62
    ensures Assemble(ts, randA, randB) == Layout(ts, randA, randB)
  {
    hide Pow2, BitOr, BitAnd, Shl, Shr, Assemble;
    var hi, lo := randB / TWO_48, randB % TWO_48;
    assert hi < TWO_14 && randB == hi * TWO_48 + lo;
    AssembleOrs(ts, randA, randB);
    Marks(randA, hi);
    OrLayers(ts, 0x7000 + randA, 0x8000 + hi, lo);
  }

  lemma UpperFields(ts: nat, randA: nat, randB: nat)
    requires randA <= COUNTER_MAX && randB < TWO_62
    ensures
      var v := Layout(ts, randA, randB);
      TimestampField(v) == ts && v / TWO_76 == ts * 16 + 7
  {
    SplitAt(ts, 0x7 * TWO_76 + randA * TWO_64 + 2 * TWO_62 + randB, TWO_80);
    SplitAt(ts * 16 + 7, randA * TWO_64 + 2 * TWO_62 + randB, TWO_76);
  }

  lemma LowerFields(ts: nat, randA: nat, randB: nat)
    requires randA <= COUNTER_MAX && randB < TWO_62
    ensures
      var v := Layout(ts, randA, randB);
      v / TWO_64 == (ts * 16 + 7) * 0x1000 + randA
      && v / TWO_62 == ((ts * 16 + 7) * 0x1000 + randA) * 4 + 2
      && RandomField(v) == randB
  {
    SplitAt((ts * 16 + 7) * 0x1000 + randA, 2 * TWO_62 + randB, TWO_64);
    SplitAt(((ts * 16 + 7) * 0x1000 + randA) * 4 + 2, randB, TWO_62);
  }

  lemma LayoutFields(ts: nat, randA: nat, randB: nat)
    requires randA <= COUNTER_MAX && randB < TWO_62
    ensures
      var v := Layout(ts, randA, randB);
      VersionField(v) == 7 && VariantField(v) == 2
      && TimestampField(v) == ts && CounterField(v) == randA && RandomField(v) == randB
  {
    hide Layout;
    UpperFields(ts, randA, randB);
    LowerFields(ts, randA, randB);
    SplitAt(ts, 7, 16);
    SplitAt(ts * 16 + 7, randA, 0x1000);
    SplitAt((ts * 16 + 7) * 0x1000 + randA, 2, 4);
  }

  /** Packing loses nothing and sets the version and variant of section 5.7. */
  lemma PackingIsLossless(ts: nat, randA: nat, randB: nat)
    requires ts < TWO_48 && randA <= COUNTER_MAX && randB < TWO_62
    ensures
      var v := Assemble(ts, randA, randB);
      v < TWO_128
      && VersionField(v) == 7 && VariantField(v) == 2
      && TimestampField(v) == ts && CounterField(v) == randA && RandomField(v) == randB
  {
    hide Assemble;
    AssembleSum(ts, randA, randB);
    LayoutFields(ts, randA, randB);
  }

  /** The packing is a 128-bit value exactly when the timestamp has 48 bits. */
  lemma FitsExactlyWhen(ts: nat, randA: nat, randB: nat)
    requires randA <= COUNTER_MAX && randB < TWO_62
    ensures Assemble(ts, randA, randB) < TWO_128 <==> ts < TWO_48
  {
    hide Assemble;
    AssembleSum(ts, randA, randB);
  }

  /** The masks that cut random bytes down to their fields. */
  lemma LowBits(entropyA: nat, entropyB: nat)
    ensures BitAnd(entropyA, COUNTER_MAX) == entropyA % 0x1000 && BitAnd(entropyB, TWO_62 - 1) == entropyB % TWO_62
  {
    hide BitAnd;
    Constants();
    AndMask(entropyA, 12);
    AndMask(entropyB, 62);
  }

  /** Every 128-bit integer with those two marks is the packing of its own fields. */
  lemma PackingIsOnto(v: nat)
    requires v < TWO_128 && VersionField(v) == 7 && VariantField(v) == 2
    ensures TimestampField(v) < TWO_48
    ensures Assemble(TimestampField(v), CounterField(v), RandomField(v)) == v
  {
    hide Assemble;
    var a := v / TWO_62;
    var b := v / TWO_64;
    var c := v / TWO_76;
    DivDiv(v, TWO_62, 4);
    DivDiv(v, TWO_64, 0x1000);
    DivDiv(v, TWO_76, 16);
    assert v == a * TWO_62 + RandomField(v);
    assert a == b * 4 + 2;
    assert b == c * 0x1000 + CounterField(v);
    assert c == TimestampField(v) * 16 + 7;
    AssembleSum(TimestampField(v), CounterField(v), RandomField(v));
  }

  /** Dividing twice is dividing by the product. */
  lemma DivDiv(v: nat, d: nat, e: nat)
    requires d > 0 && e > 0
    ensures d * e > 0 && v / d / e == v / (d * e)
  {
    var a := v / d;
    var q, r, x := a / e, a % e, v % d;
    Whole(v, d);
    Whole(a, e);
    Regroup(q, e, r, d, x);
    Below(r, e, x, d);
    SplitAt(q, r * d + x, d * e);
  }

  lemma Whole(v: nat, d: nat)
    requires d > 0
    ensures v == v / d * d + v % d && v % d < d
  {
  }

  lemma Regroup(q: nat, e: nat, r: nat, d: nat, x: nat)
    ensures (q * e + r) * d + x == q * (d * e) + (r * d + x)
  {
    assert (q * e) * d == q * (d * e);
  }

  lemma Below(r: nat, e: nat, x: nat, d: nat)
    requires r < e && x < d
    ensures r * d + x < d * e
  {
    MulMonotone(r + 1, e, d);
    assert (r + 1) * d == r * d + d;
  }

  /** The order of (timestamp, counter) pairs is the order of whole identifiers, whatever is random. */
  lemma OrderIsPreserved(g: Generator, h: Generator, randB: nat, randB': nat)
    requires ValidGenerator(g) && ValidGenerator(h)
    requires 0 <= g.lastMs && 0 <= h.lastMs
    requires randB < TWO_62 && randB' < TWO_62
    requires Before(g, h)
    ensures Assemble(g.lastMs, g.counter, randB) < Assemble(h.lastMs, h.counter, randB')
  {
    hide Assemble;
    AssembleSum(g.lastMs, g.counter, randB);
    AssembleSum(h.lastMs, h.counter, randB');
  }

  /** Identifiers made by successive calls strictly increase, for any clock and any random bits. */
  lemma IdsStrictlyIncrease(rs: seq<Reading>, i: nat, j: nat, randB: nat, randB': nat)
    requires ValidReadings(rs)
    requires 0 < i < j <= |rs| && rs[0].now >= 0
    requires randB < TWO_62 && randB' < TWO_62
    ensures
      var g, h := After(INITIAL, rs[..i]), After(INITIAL, rs[..j]);
      0 <= g.lastMs <= h.lastMs && Assemble(g.lastMs, g.counter, randB) < Assemble(h.lastMs, h.counter, randB')
  {
    ReachableIsValid(rs[..i]);
    ReachableIsValid(rs[..j]);
    StrictlyIncreasing(rs, i, j);
    assert After(INITIAL, rs[..1]).lastMs == rs[0].now by {
      assert rs[..1][..0] == [];
    }
    if 1 < i {
      StrictlyIncreasing(rs, 1, i);
    }
    OrderIsPreserved(After(INITIAL, rs[..i]), After(INITIAL, rs[..j]), randB, randB');
  }

  // ---------------------------------------------------------------- the two public functions

  datatype IdError = TimestampOutOfRange | NotVersion7

  function TimestampMs(v: nat): Result<nat, IdError> {
    if VariantField(v) != 2 || VersionField(v) != 7 then Err(NotVersion7) else Ok(Shr(v, 80))
  }

  /** Decoding accepts exactly the packed identifiers, and inverts the packing on them. */
  lemma TimestampInverts(v: nat, ts: nat)
    requires v < TWO_128
    ensures TimestampMs(v) == Ok(ts)
            <==> exists a, b :: ts < TWO_48 && 0 <= a <= COUNTER_MAX && 0 <= b < TWO_62 && v == Assemble(ts, a, b)
  {
    Constants();
    if TimestampMs(v) == Ok(ts) {
      PackingIsOnto(v);
    }
    forall a: nat, b: nat | ts < TWO_48 && a <= COUNTER_MAX && b < TWO_62 && v == Assemble(ts, a, b)
      ensures TimestampMs(v) == Ok(ts)
    {
      PackingIsLossless(ts, a, b);
    }
  }

  class IdSource {
    var lastTimestampMs: int
    var counter: nat

    ghost function State(): Generator
      reads this
    {
      Generator(lastTimestampMs, counter)
    }

    constructor ()
      ensures State() == INITIAL
    {
      lastTimestampMs, counter := -1, 0;
    }

    method NextMonotonic(now: int, entropy: nat) returns (ts: int, c: nat)
      requires ValidGenerator(State()) && entropy < 0x1_0000
      modifies this
      ensures State() == Next(old(State()), Reading(now, entropy))
      ensures ValidGenerator(State()) && Before(old(State()), State())
      ensures Generator(ts, c) == State()
    {
      if now > lastTimestampMs {
        lastTimestampMs := now;
        counter := entropy / 64;
      } else if counter >= COUNTER_MAX {
        lastTimestampMs := lastTimestampMs + 1;
        counter := entropy / 64;
      } else {
        counter := counter + 1;
      }
      return lastTimestampMs, counter;
    }

    /** The four shifted ors. */
    method Pack(ts: nat, randA: nat, randB: nat) returns (value: nat)
      ensures value == Assemble(ts, randA, randB)
    {
      Constants();
      hide BitOr, BitAnd, Shl, Shr;
      value := Shl(ts, 80);
      value := BitOr(value, Shl(BitOr(0x7000, randA), 64));
      value := BitOr(value, Shl(BitOr(0x8000, Shr(randB, 48)), 48));
      value := BitOr(value, BitAnd(randB, TWO_48 - 1));
    }

    /**
     * `explicit` is the caller's timestamp, if any; the clock and random bytes are inputs.
     * An integer outside 0 .. 2^128 - 1 is refused by the UUID constructor.
     */
    method Uuid7(explicit: Option<int>, now: int, entropyA: nat, entropyB: nat) returns (r: Result<nat, IdError>)
      requires ValidGenerator(State()) && entropyA < 0x1_0000 && entropyB < TWO_64
      modifies this
      ensures explicit.Some? ==> State() == old(State())
      ensures explicit.Some? ==>
        r == if 0 <= explicit.value < TWO_48
             then Ok(Assemble(explicit.value, entropyA % 0x1000, entropyB % TWO_62))
             else Err(TimestampOutOfRange)
      ensures explicit.None? ==>
        State() == Next(old(State()), Reading(now, entropyA))
        && r == if 0 <= State().lastMs < TWO_48
                then Ok(Assemble(State().lastMs, State().counter, entropyB % TWO_62))
                else Err(TimestampOutOfRange)
      ensures r.Ok? ==> r.value < TWO_128 && VersionField(r.value) == 7 && VariantField(r.value) == 2
    {
      hide Assemble, BitOr, BitAnd, Pow2, VersionField, VariantField;
      var ts: int;
      var randA: nat;
      if explicit.None? {
        ts, randA := NextMonotonic(now, entropyA);
      } else {
        if !(0 <= explicit.value < TWO_48) {
          return Err(TimestampOutOfRange);
        }
        ts := explicit.value;
        LowBits(entropyA, entropyB);
        randA := BitAnd(entropyA, COUNTER_MAX);
      }
      LowBits(entropyA, entropyB);
      var randB := BitAnd(entropyB, TWO_62 - 1);
      if ts < 0 {
        return Err(TimestampOutOfRange);
      }
      var value := Pack(ts, randA, randB);
      FitsExactlyWhen(ts, randA, randB);
      if value >= TWO_128 {
        return Err(TimestampOutOfRange);
      }
      PackingIsLossless(ts, randA, randB);
      return Ok(value);
    }
  }
}
