// The C integer types the firmware stores its state in, and the
// conversions C applies when a value is assigned to a narrower type.
module CTypes {

  type byte = x: int | 0 <= x < 0x100
  type uint16 = x: int | 0 <= x < 0x1_0000
  type uint32 = x: int | 0 <= x < 0x1_0000_0000
  type int8 = x: int | -0x80 <= x < 0x80
  type int16 = x: int | -0x8000 <= x < 0x8000
  type int32 = x: int | -0x8000_0000 <= x < 0x8000_0000
  type int64 = x: int | -0x8000_0000_0000_0000 <= x < 0x8000_0000_0000_0000

  datatype Option<T> = None | Some(value: T)

  /** Assignment to an `unsigned int`: reduction modulo 2^32. */
  function ToUint32(x: int): (r: uint32)
    ensures (x - r) % 0x1_0000_0000 == 0
  {
    x % 0x1_0000_0000
  }

  /** Assignment to an `int` (two's complement, as gcc does it). */
  function ToInt32(x: int): (r: int32)
    ensures (x - r) % 0x1_0000_0000 == 0
  {
    (x + 0x8000_0000) % 0x1_0000_0000 - 0x8000_0000
  }

  /** Assignment to an `int64_t`. */
  function ToInt64(x: int): (r: int64)
    ensures (x - r) % 0x1_0000_0000_0000_0000 == 0
  {
    (x + 0x8000_0000_0000_0000) % 0x1_0000_0000_0000_0000 - 0x8000_0000_0000_0000
  }

  /** Assignment to an `uint8_t`. */
  function ToUint8(x: int): (r: byte)
    ensures (x - r) % 0x100 == 0
  {
    x % 0x100
  }

  /** Assignment to an `int8_t`. */
  function ToInt8(x: int): (r: int8)
    ensures (x - r) % 0x100 == 0
  {
    (x + 0x80) % 0x100 - 0x80
  }

  /** Assignment to an `int16_t`. */
  function ToInt16(x: int): (r: int16)
    ensures (x - r) % 0x1_0000 == 0
  {
    (x + 0x8000) % 0x1_0000 - 0x8000
  }

  /** A value that already fits its type is kept by the conversion. */
  lemma NarrowingKeepsFittingValues(x: int)
    ensures 0 <= x < 0x1_0000_0000 ==> ToUint32(x) == x
    ensures -0x8000_0000 <= x < 0x8000_0000 ==> ToInt32(x) == x
    ensures -0x8000_0000_0000_0000 <= x < 0x8000_0000_0000_0000 ==> ToInt64(x) == x
    ensures 0 <= x < 0x100 ==> ToUint8(x) == x
    ensures -0x80 <= x < 0x80 ==> ToInt8(x) == x
    ensures -0x8000 <= x < 0x8000 ==> ToInt16(x) == x
  {
    if 0 <= x < 0x1_0000_0000 {
      assert x % 0x1_0000_0000 == x;
    }
    if -0x8000_0000 <= x < 0x8000_0000 {
      assert (x + 0x8000_0000) % 0x1_0000_0000 == x + 0x8000_0000;
    }
    if -0x8000_0000_0000_0000 <= x < 0x8000_0000_0000_0000 {
      assert (x + 0x8000_0000_0000_0000) % 0x1_0000_0000_0000_0000 == x + 0x8000_0000_0000_0000;
    }
    if 0 <= x < 0x100 {
      assert x % 0x100 == x;
    }
    if -0x80 <= x < 0x80 {
      ToInt8Keeps(x);
    }
    if -0x8000 <= x < 0x8000 {
      assert (x + 0x8000) % 0x1_0000 == x + 0x8000;
    }
  }

  lemma ToInt8Keeps(x: int)
    requires -0x80 <= x < 0x80
    ensures ToInt8(x) == x
  {
  }

  /** Storing an `int` in an `unsigned int` and reading it back as `int` is lossless. */
  lemma SignedUnsignedRoundTrip(x: int32)
    ensures ToInt32(ToUint32(x)) == x
  {
  }

  function Pow2(n: nat): (r: nat)
    ensures r >= 1
  {
    if n == 0 then 1 else 2 * Pow2(n - 1)
  }

  /** `bitRead(x, n)`, `(x >> n) & 1`, for a non-negative value. */
  function BitRead(x: nat, n: nat): (r: nat)
    ensures r <= 1
  {
    if n == 0 then x % 2 else BitRead(x / 2, n - 1)
  }

  /** `x & ~(1 << n)`. */
  function BitClear(x: nat, n: nat): nat {
    if n == 0 then x - x % 2 else 2 * BitClear(x / 2, n - 1) + x % 2
  }

  /** `x | (1 << n)`. */
  function BitSet(x: nat, n: nat): nat {
    if n == 0 then x - x % 2 + 1 else 2 * BitSet(x / 2, n - 1) + x % 2
  }

  /** `x ^ y`. */
  function BitXor(x: nat, y: nat): nat
    decreases x + y
  {
    if x == 0 && y == 0 then 0
    else 2 * BitXor(x / 2, y / 2) + (if x % 2 == y % 2 then 0 else 1)
  }

  /** `x & y`. */
  function BitAnd(x: nat, y: nat): nat {
    if x == 0 then 0 else 2 * BitAnd(x / 2, y / 2) + (x % 2) * (y % 2)
  }

  /** `x | y`. */
  function BitOr(x: nat, y: nat): nat
    decreases x + y
  {
    if x == 0 && y == 0 then 0
    else 2 * BitOr(x / 2, y / 2) + (if x % 2 == 1 || y % 2 == 1 then 1 else 0)
  }

  /** `x & y` works on the bits above 2^k and the bits below it separately. */
  lemma {:induction false} BitAndShift(a: nat, b: nat, h: nat, l: nat, k: nat)
    requires b < Pow2(k) && l < Pow2(k)
    ensures BitAnd(Pow2(k) * a + b, Pow2(k) * h + l) == Pow2(k) * BitAnd(a, h) + BitAnd(b, l)
  {
    if k == 0 {
      assert b == 0;
      BitAndZero(0);
    } else {
      var p := Pow2(k - 1);
      var q := BitAnd(a, h);
      var ma := Product(p, a);
      var mh := Product(p, h);
      var pq := Product(p, q);
      var low := if b % 2 == 1 && l % 2 == 1 then 1 else 0;
      ShiftStep(k, a);
      ShiftStep(k, h);
      ShiftStep(k, q);
      HalfBelow(b, k);
      HalfBelow(l, k);
      BitAndShift(a, b / 2, h, l / 2, k - 1);
      assert BitAnd(ma + b / 2, mh + l / 2) == pq + BitAnd(b / 2, l / 2);
      BitAndDouble(ma, b, mh, l);
      assert BitAnd(2 * ma + b, 2 * mh + l) == 2 * pq + 2 * BitAnd(b / 2, l / 2) + low;
      BitAndUnfold(b, l, b / 2, l / 2);
      assert BitAnd(b, l) == 2 * BitAnd(b / 2, l / 2) + low;
    }
  }

  /** One step of `x & y` on two values with known halves. */
  lemma BitAndDouble(ma: nat, b: nat, mh: nat, l: nat)
    ensures BitAnd(2 * ma + b, 2 * mh + l) == 2 * BitAnd(ma + b / 2, mh + l / 2) + (if b % 2 == 1 && l % 2 == 1 then 1 else 0)
  {
    SplitHalf(ma, b);
    SplitHalf(mh, l);
    BitAndUnfold(2 * ma + b, 2 * mh + l, ma + b / 2, mh + l / 2);
  }

  /** A product of two naturals, as a natural. */
  lemma Product(p: nat, a: nat) returns (m: nat)
    ensures m == p * a
  {
    m := p * a;
  }

  /** Two to the n is twice two to the n - 1. */
  lemma Pow2Step(n: nat)
    requires n > 0
    ensures Pow2(n) == 2 * Pow2(n - 1)
  {
  }

  /** Multiplying by 2^k is doubling a multiple of 2^(k-1). */
  lemma ShiftStep(k: nat, a: nat)
    requires k > 0
    ensures Pow2(k) * a == 2 * (Pow2(k - 1) * a)
  {
    Pow2Step(k);
    DoubleTimes(Pow2(k - 1), a);
  }

  /** Half of a k-bit value is a (k - 1)-bit value. */
  lemma HalfBelow(b: nat, k: nat)
    requires k > 0 && b < Pow2(k)
    ensures b / 2 < Pow2(k - 1)
  {
    Pow2Step(k);
  }

  /** Sequence concatenation is associative. */
  lemma ConcatAssoc<T>(a: seq<T>, b: seq<T>, c: seq<T>)
    ensures (a + b) + c == a + (b + c)
  {
  }

  /** Writing the target's element i after a prefix that already agrees extends the agreement by one and leaves the rest alone. */
  lemma StoreExtendsPrefix<T>(before: seq<T>, orig: seq<T>, target: seq<T>, i: nat, v: T)
    requires i < |before| == |orig| && i < |target|
    requires before[..i] == target[..i] && before[i..] == orig[i..] && v == target[i]
    ensures before[i := v][..i + 1] == target[..i + 1] && before[i := v][i + 1..] == orig[i + 1..]
  {
    assert before[i := v][..i + 1] == before[..i] + [v];
    assert target[..i + 1] == target[..i] + [v];
  }

  /** A second write to the same position overrides the first. */
  lemma UpdateTwice<T>(s: seq<T>, i: nat, a: T, b: T)
    requires i < |s|
    ensures s[i := a][i := b] == s[i := b]
  {
  }

  /** A sequence that agrees with the target up to i and with the target's rest after it is the target. */
  lemma PrefixAndRest<T>(a: seq<T>, target: seq<T>, rest: seq<T>, i: nat)
    requires i <= |a| && i <= |target| && a[..i] == target[..i] && a[i..] == rest && target[i..] == rest
    ensures a == target
  {
    assert a == a[..i] + a[i..];
    assert target == target[..i] + target[i..];
  }

  /** Halving `2m + b` halves b and keeps its low bit. */
  lemma SplitHalf(m: nat, b: nat)
    ensures (2 * m + b) / 2 == m + b / 2 && (2 * m + b) % 2 == b % 2
  {
  }

  lemma DoubleTimes(p: nat, q: nat)
    ensures (2 * p) * q == 2 * (p * q)
  {
  }

  /** One step of `x & y`: the low bits, and the rest shifted down. */
  lemma BitAndUnfold(x: nat, y: nat, x2: nat, y2: nat)
    requires x2 == x / 2 && y2 == y / 2
    ensures BitAnd(x, y) == 2 * BitAnd(x2, y2) + (if x % 2 == 1 && y % 2 == 1 then 1 else 0)
  {
    if x == 0 {
      assert x2 == 0;
    } else if x % 2 == 1 && y % 2 == 1 {
      assert (x % 2) * (y % 2) == 1;
    } else {
      assert (x % 2) * (y % 2) == 0;
    }
  }

  /** Masking with k one-bits keeps a k-bit value. */
  lemma {:induction false} BitAndOnes(x: nat, k: nat)
    requires x < Pow2(k)
    ensures BitAnd(x, Pow2(k) - 1) == x
  {
    if k > 0 && x > 0 {
      var p := Pow2(k - 1);
      Pow2Step(k);
      var ones := 2 * (p - 1) + 1;
      assert Pow2(k) - 1 == ones;
      HalfBelow(x, k);
      BitAndOnes(x / 2, k - 1);
      SplitHalf(p - 1, 1);
      BitAndUnfold(x, ones, x / 2, p - 1);
    }
  }

  /** Masking with 0 clears everything. */
  lemma {:induction false} BitAndZero(x: nat)
    ensures BitAnd(x, 0) == 0
  {
    if x > 0 {
      BitAndZero(x / 2);
    }
  }

  /** `(a << k) | b` is `a * 2^k + b` when b has no bit at k or above. */
  lemma {:induction false} BitOrShift(a: nat, b: nat, k: nat)
    requires b < Pow2(k)
    ensures BitOr(Pow2(k) * a, b) == Pow2(k) * a + b
  {
    if k == 0 {
      assert b == 0;
      BitOrZero(a);
    } else {
      var m := Product(Pow2(k - 1), a);
      ShiftStep(k, a);
      HalfBelow(b, k);
      BitOrShift(a, b / 2, k - 1);
      BitOrDouble(m, b);
    }
  }

  /** One step of `(2m) | b`: the low bit of b, and m or'ed with the rest of b. */
  lemma BitOrDouble(m: nat, b: nat)
    ensures BitOr(2 * m, b) == 2 * BitOr(m, b / 2) + b % 2
  {
    if !(m == 0 && b == 0) {
      SplitHalf(m, 0);
      BitOrUnfold(2 * m, b, m, b / 2);
    }
  }

  /** One step of `x | y`: the low bits, and the rest shifted down. */
  lemma BitOrUnfold(x: nat, y: nat, x2: nat, y2: nat)
    requires x2 == x / 2 && y2 == y / 2 && !(x == 0 && y == 0)
    ensures BitOr(x, y) == 2 * BitOr(x2, y2) + (if x % 2 == 1 || y % 2 == 1 then 1 else 0)
  {
  }

  /** `x | y` of two n-bit values is an n-bit value. */
  lemma {:induction false} BitOrNarrow(x: nat, y: nat, n: nat)
    requires x < Pow2(n) && y < Pow2(n)
    ensures BitOr(x, y) < Pow2(n)
    decreases x + y
  {
    if !(x == 0 && y == 0) {
      if n > 0 {
        HalfBelow(x, n);
        HalfBelow(y, n);
        BitOrNarrow(x / 2, y / 2, n - 1);
        BitOrUnfold(x, y, x / 2, y / 2);
      }
    }
  }

  /** Small powers of two, for masks and shifts by a constant. */
  lemma Pow2Values()
    ensures Pow2(1) == 2 && Pow2(3) == 8 && Pow2(4) == 16 && Pow2(7) == 128 && Pow2(8) == 256 && Pow2(15) == 0x8000
  {
    assert Pow2(1) == 2;
    assert Pow2(2) == 4;
    assert Pow2(3) == 8;
    assert Pow2(4) == 16;
    assert Pow2(5) == 32;
    assert Pow2(6) == 64;
    assert Pow2(7) == 128;
    assert Pow2(8) == 256;
    assert Pow2(9) == 512;
    assert Pow2(10) == 1024;
    assert Pow2(11) == 2048;
    assert Pow2(12) == 4096;
    assert Pow2(13) == 8192;
    assert Pow2(14) == 0x4000;
  }

  /** 2^32, one more than the largest uint32. */
  lemma Pow2Word()
    ensures Pow2(32) == 0x1_0000_0000
  {
    Pow2Values();
    assert Pow2(16) == 0x1_0000;
    assert Pow2(20) == 0x10_0000;
    assert Pow2(24) == 0x100_0000;
    assert Pow2(28) == 0x1000_0000;
  }

  /** `x & (1 << k)` is bit k of x, left in place. */
  lemma {:induction false} BitAndPow2(x: nat, k: nat)
    ensures BitAnd(x, Pow2(k)) == Pow2(k) * BitRead(x, k)
  {
    if x == 0 {
      BitReadZero(k);
    } else if k == 0 {
      BitAndZero(x / 2);
    } else {
      var p := Pow2(k - 1);
      var r := BitRead(x / 2, k - 1);
      Pow2Step(k);
      SplitHalf(p, 0);
      BitAndPow2(x / 2, k - 1);
      BitAndUnfold(x, 2 * p, x / 2, p);
      assert BitRead(x, k) == r;
      DoubleTimes(p, r);
    }
  }

  lemma {:induction false} BitOrZero(x: nat)
    ensures BitOr(x, 0) == x
    decreases x
  {
    if x > 0 {
      BitOrZero(x / 2);
    }
  }

  /** Clearing bit n changes bit n alone, to 0, and never increases the value. */
  lemma {:induction false} BitClearBits(x: nat, n: nat, m: nat)
    ensures BitRead(BitClear(x, n), m) == if m == n then 0 else BitRead(x, m)
    ensures BitClear(x, n) <= x
  {
    if n == 0 {
      SplitHalf(x / 2, 0);
      assert BitClear(x, 0) == 2 * (x / 2);
      if m > 0 {
        assert BitRead(BitClear(x, 0), m) == BitRead(x / 2, m - 1);
      }
    } else {
      var c := BitClear(x / 2, n - 1);
      assert BitClear(x, n) == 2 * c + x % 2;
      SplitHalf(c, x % 2);
      BitClearBits(x / 2, n - 1, if m == 0 then 0 else m - 1);
      if m > 0 {
        assert BitRead(BitClear(x, n), m) == BitRead(c, m - 1);
      }
    }
  }

  /** Setting bit n changes bit n alone, to 1. */
  lemma {:induction false} BitSetBits(x: nat, n: nat, m: nat)
    ensures BitRead(BitSet(x, n), m) == if m == n then 1 else BitRead(x, m)
  {
    if n == 0 {
      SplitHalf(x / 2, 1);
      assert BitSet(x, 0) == 2 * (x / 2) + 1;
      if m > 0 {
        assert BitRead(BitSet(x, 0), m) == BitRead(x / 2, m - 1);
      }
    } else {
      var c := BitSet(x / 2, n - 1);
      assert BitSet(x, n) == 2 * c + x % 2;
      SplitHalf(c, x % 2);
      BitSetBits(x / 2, n - 1, if m == 0 then 0 else m - 1);
      if m > 0 {
        assert BitRead(BitSet(x, n), m) == BitRead(c, m - 1);
      }
    }
  }

  /** Bit m of `x ^ y` is set exactly where x and y differ. */
  lemma {:induction false} BitXorBits(x: nat, y: nat, m: nat)
    ensures BitRead(BitXor(x, y), m) == if BitRead(x, m) == BitRead(y, m) then 0 else 1
    decreases m
  {
    if m > 0 {
      if x == 0 && y == 0 {
        BitReadZero(m);
      } else {
        var q, b := BitXor(x / 2, y / 2), if x % 2 == y % 2 then 0 else 1;
        assert BitXor(x, y) == 2 * q + b;
        SplitHalf(q, b);
        assert BitRead(BitXor(x, y), m) == BitRead(q, m - 1);
        BitXorBits(x / 2, y / 2, m - 1);
      }
    }
  }

  lemma {:induction false} BitReadZero(m: nat)
    ensures BitRead(0, m) == 0
  {
    if m > 0 {
      BitReadZero(m - 1);
    }
  }

  /** Operations on n-bit values keep them n-bit. */
  lemma {:induction false} BitOpsStayNarrow(x: nat, y: nat, n: nat, m: nat)
    requires x < Pow2(n) && y < Pow2(n)
    ensures BitXor(x, y) < Pow2(n)
    ensures BitClear(x, m) < Pow2(n)
    ensures m < n ==> BitSet(x, m) < Pow2(n)
  {
    BitXorNarrow(x, y, n);
    BitClearBits(x, m, 0);
    if m < n {
      BitSetNarrow(x, m, n);
    }
  }

  lemma {:induction false} BitXorNarrow(x: nat, y: nat, n: nat)
    requires x < Pow2(n) && y < Pow2(n)
    ensures BitXor(x, y) < Pow2(n)
    decreases x + y
  {
    if !(x == 0 && y == 0) {
      if n > 0 {
        HalfBelow(x, n);
        HalfBelow(y, n);
        BitXorNarrow(x / 2, y / 2, n - 1);
        assert BitXor(x, y) == 2 * BitXor(x / 2, y / 2) + (if x % 2 == y % 2 then 0 else 1);
      }
    }
  }

  lemma {:induction false} BitSetNarrow(x: nat, m: nat, n: nat)
    requires x < Pow2(n) && m < n
    ensures BitSet(x, m) < Pow2(n)
  {
    Pow2Step(n);
    HalfBelow(x, n);
    if m > 0 {
      BitSetNarrow(x / 2, m - 1, n - 1);
      assert BitSet(x, m) == 2 * BitSet(x / 2, m - 1) + x % 2;
    } else {
      assert BitSet(x, m) == 2 * (x / 2) + 1;
    }
  }

  /** A value below 2^n has no bit at n or above. */
  lemma {:induction false} BitReadHigh(x: nat, n: nat, m: nat)
    requires x < Pow2(n) && m >= n
    ensures BitRead(x, m) == 0
  {
    if n == 0 {
      assert x == 0;
      BitReadZero(m);
    } else {
      HalfBelow(x, n);
      BitReadHigh(x / 2, n - 1, m - 1);
    }
  }
}
