/** The globally unique id generator: the seconds elapsed since a fixed epoch in the high
    32 bits of a 64-bit signed long, and a per-prefix, per-day store counter in the low bits. */
module IdWorker {
  import opened Common
  import opened Redis

  const COUNT_BITS := 32
  /** 2025-04-14T00:00:00Z in epoch seconds. */
  const BEGIN_TIMESTAMP := 1744588800

  const TWO_32 := 0x1_0000_0000
  const TWO_63 := 0x8000_0000_0000_0000
  const TWO_64 := 0x1_0000_0000_0000_0000

  function Pow2(k: nat): (p: nat)
    ensures p >= 1
  {
    if k == 0 then 1 else 2 * Pow2(k - 1)
  }

  // ----- Java long arithmetic on unbounded integers -----

  /** The two's-complement bit pattern of a long, as an unsigned number. */
  function ToUnsigned64(x: int): (u: nat)
    ensures u < TWO_64
  {
    x % TWO_64
  }

  /** The long whose bit pattern is `u`. */
  function ToSigned64(u: nat): (x: int)
    requires u < TWO_64
    ensures -TWO_63 <= x < TWO_63
    ensures ToUnsigned64(x) == u
  {
    if u < TWO_63 then u else u - TWO_64
  }

  /** Bitwise or of two non-negative numbers. */
  function BitOr(a: nat, b: nat): nat
  {
    if a == 0 then b
    else if b == 0 then a
    else 2 * BitOr(a / 2, b / 2) + (if a % 2 == 1 || b % 2 == 1 then 1 else 0)
  }

  /** Java's `x << k` on a long: the bits shifted past bit 63 are lost. */
  function ShiftLeft64(x: int, k: nat): (r: int)
    ensures -TWO_63 <= r < TWO_63
  {
    ToSigned64(ToUnsigned64(x) * Pow2(k) % TWO_64)
  }

  /** Java's `a | b` on longs. */
  function Or64(a: int, b: int): (r: int)
    ensures -TWO_63 <= r < TWO_63
  {
    Pow2Is64();
    BitOrBelow(ToUnsigned64(a), ToUnsigned64(b), 64);
    ToSigned64(BitOr(ToUnsigned64(a), ToUnsigned64(b)))
  }

  lemma {:induction false} BitOrBelow(a: nat, b: nat, k: nat)
    requires a < Pow2(k) && b < Pow2(k)
    ensures BitOr(a, b) < Pow2(k)
  {
    if a != 0 && b != 0 {
      assert k > 0;
      BitOrBelow(a / 2, b / 2, k - 1);
    }
  }

  lemma Pow2Is64()
    ensures Pow2(32) == TWO_32 && Pow2(64) == TWO_64
  {
    Pow2Is16();
    Pow2Add(16, 16);
    Pow2Add(32, 32);
  }

  lemma Pow2Is16()
    ensures Pow2(16) == 0x1_0000
  {
    assert Pow2(4) == 16;
    Pow2Add(4, 4);
    Pow2Add(8, 8);
  }

  lemma {:induction false} Pow2Add(a: nat, b: nat)
    ensures Pow2(a + b) == Pow2(a) * Pow2(b)
  {
    if b > 0 { Pow2Add(a, b - 1); }
  }

  /** Or-ing a number below 2^k into a multiple of 2^k is addition: the bits do not meet. */
  lemma {:induction false} BitOrDisjoint(hi: nat, lo: nat, k: nat)
    requires lo < Pow2(k)
    ensures BitOr(hi * Pow2(k), lo) == hi * Pow2(k) + lo
  {
    var a := hi * Pow2(k);
    if a != 0 && lo != 0 {
      assert k > 0;
      assert a == 2 * (hi * Pow2(k - 1));
      assert a / 2 == hi * Pow2(k - 1) && a % 2 == 0;
      BitOrDisjoint(hi, lo / 2, k - 1);
    }
  }

  // ----- the id -----

  /** `timeStamp << COUNT_BITS | count`, with Java's 64-bit wrap-around. */
  function ComposeId(timeStamp: int, count: int): int
  {
    Or64(ShiftLeft64(timeStamp, COUNT_BITS), count)
  }

  /** Within the bounds of the design (a timestamp that fits 31 bits, a counter that fits
      32), the id is exactly timeStamp * 2^32 + count and is non-negative. */
  lemma ComposeIdValue(timeStamp: int, count: int)
    requires 0 <= timeStamp < 0x8000_0000 && 0 <= count < TWO_32
    ensures ComposeId(timeStamp, count) == timeStamp * TWO_32 + count
    ensures 0 <= ComposeId(timeStamp, count) < TWO_63
  {
    ShiftLeftValue(timeStamp);
    var shifted := timeStamp * TWO_32;
    Pow2Is64();
    BitOrDisjoint(timeStamp, count, 32);
    assert ToUnsigned64(shifted) == shifted && ToUnsigned64(count) == count;
    assert BitOr(shifted, count) == shifted + count;
  }

  /** Shifting a 31-bit timestamp left by 32 loses no bit and keeps the sign bit clear. */
  lemma ShiftLeftValue(timeStamp: int)
    requires 0 <= timeStamp < 0x8000_0000
    ensures ShiftLeft64(timeStamp, COUNT_BITS) == timeStamp * TWO_32
  {
    Pow2Is64();
    var shifted := timeStamp * TWO_32;
    assert shifted < TWO_63;
    assert ToUnsigned64(timeStamp) == timeStamp;
    assert shifted % TWO_64 == shifted;
  }

  /** `id >> 32` and `id & 0xFFFFFFFF` give the timestamp and the counter back. */
  lemma DecodeId(timeStamp: int, count: int)
    requires 0 <= timeStamp < 0x8000_0000 && 0 <= count < TWO_32
    ensures ComposeId(timeStamp, count) / TWO_32 == timeStamp
    ensures ComposeId(timeStamp, count) % TWO_32 == count
  {
    ComposeIdValue(timeStamp, count);
  }

  /** Ids are unique: different (second, counter) pairs give different ids. */
  lemma IdsUnique(t1: int, c1: int, t2: int, c2: int)
    requires 0 <= t1 < 0x8000_0000 && 0 <= c1 < TWO_32
    requires 0 <= t2 < 0x8000_0000 && 0 <= c2 < TWO_32
    requires ComposeId(t1, c1) == ComposeId(t2, c2)
    ensures t1 == t2 && c1 == c2
  {
    DecodeId(t1, c1);
    DecodeId(t2, c2);
  }

  /** Within one second the id grows with the counter. */
  lemma IdGrowsWithCounter(t: int, c1: int, c2: int)
    requires 0 <= t < 0x8000_0000 && 0 <= c1 < c2 < TWO_32
    ensures ComposeId(t, c1) < ComposeId(t, c2)
  {
    ComposeIdValue(t, c1);
    ComposeIdValue(t, c2);
  }

  /** An id from a later second is larger than every id from an earlier second. */
  lemma LaterSecondLargerId(t1: int, c1: int, t2: int, c2: int)
    requires 0 <= t1 < t2 < 0x8000_0000 && 0 <= c1 < TWO_32 && 0 <= c2 < TWO_32
    ensures ComposeId(t1, c1) < ComposeId(t2, c2)
  {
    ComposeIdValue(t1, c1);
    ComposeIdValue(t2, c2);
  }

  /** Past 2^32 ids in one day the counter spills into the timestamp bits, and ids repeat. */
  lemma CounterOverflowCollides()
    ensures ComposeId(0, TWO_32) == ComposeId(1, 0)
  {
    Pow2Is64();
    BitOrDisjoint(1, 0, 32);
    assert ToUnsigned64(TWO_32) == 1 * Pow2(32);
    assert BitOr(0, ToUnsigned64(TWO_32)) == TWO_32;
  }

  // ----- the counter key -----

  function CounterKey(keyPrefix: string, d: DateTime): string
    requires CalendarFields(d)
  {
    "icr:" + keyPrefix + ":" + FormatDate(d)
  }

  /** One counter per prefix and calendar day: two counter keys coincide only for the same
      prefix on the same day. */
  lemma CounterKeyInjective(p1: string, d1: DateTime, p2: string, d2: DateTime)
    requires CalendarFields(d1) && CalendarFields(d2)
    requires CounterKey(p1, d1) == CounterKey(p2, d2)
    ensures p1 == p2
    ensures d1.year == d2.year && d1.month == d2.month && d1.day == d2.day
  {
    var k1, k2 := CounterKey(p1, d1), CounterKey(p2, d2);
    assert |p1| == |p2|;
    assert p1 == k1[4..4 + |p1|] == k2[4..4 + |p2|] == p2;
    var f1, f2 := FormatDate(d1), FormatDate(d2);
    assert f1 == k1[|k1| - 10..] == k2[|k2| - 10..] == f2;
    FormatDateInjective(d1, d2);
  }

  /** nextId(keyPrefix): one INCR of the day's counter, then the composed id. */
  method NextId(store: Store, keyPrefix: string, now: DateTime) returns (id: int)
    requires CalendarFields(now)
    modifies store`counters
    ensures var key := CounterKey(keyPrefix, now);
            var count := (if key in old(store.counters) then old(store.counters)[key] else 0) + 1;
            && store.counters == old(store.counters)[key := count]
            && id == ComposeId(now.epochSecond - BEGIN_TIMESTAMP, count)
  {
    var timeStamp := now.epochSecond - BEGIN_TIMESTAMP;
    var count := store.Incr(CounterKey(keyPrefix, now));
    id := ComposeId(timeStamp, count);
  }
}
