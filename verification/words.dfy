/** 64-bit capacity bit masks and the sets of cache ways they stand for.

  The driver computes on Go `uint64` words; everything it promises is about
  sets of ways.  `Ways` is the bridge, and the lemmas here let the other
  modules reason on sets alone.
 */
module Words {

  const WORD: nat := 64

  /** Go's `1 << uint(i)`: a negative i converts to a huge shift, and a shift
      past the word gives 0. */
  function OneHot(i: int): bv64 {
    if 0 <= i < WORD then (1 as bv64) << i else 0
  }

  /** Go's `m >> uint(i) & 1 == 1`, false past the end of the word. */
  predicate Bit(m: bv64, i: nat) {
    i < WORD && BitAt(m, i as bv7)
  }

  predicate BitAt(m: bv64, j: bv7)
    requires j < 64
  {
    (m >> j) & 1 == 1
  }

  /** The ways a mask stands for. */
  ghost function Ways(m: bv64): set<nat> {
    set i: nat | i < WORD && Bit(m, i)
  }

  predicate Within(start: int, count: int, i: nat) {
    i < WORD && start <= i < start + count
  }

  /** The ways of [start, start + count) that exist in a 64-bit word. */
  ghost function Span(start: int, count: int): set<nat> {
    set i: nat | i < WORD && Within(start, count, i)
  }

  /** The number of ways in a mask. */
  ghost function Popcount(m: bv64): nat {
    |Ways(m)|
  }

  // ----- positions as machine indices

  lemma IndexValue(i: nat)
    requires i < WORD
    ensures (i as bv7) as int == i && i as bv7 < 64
  {
  }

  lemma IndexNext(j: bv7)
    requires j < 64
    ensures (j + 1) as int == j as int + 1
  {
  }

  lemma IndexSuccessor(i: nat)
    requires i < WORD
    ensures (i + 1) as bv7 == (i as bv7) + 1
  {
    IndexValue(i);
    IndexNext(i as bv7);
    var j := (i as bv7) + 1;
    assert j as int == i + 1;
    assert (j as int) as bv7 == j;
  }

  // ----- bitwise operations are set operations

  lemma OrAt(a: bv64, b: bv64, j: bv7)
    requires j < 64
    ensures BitAt(a | b, j) <==> BitAt(a, j) || BitAt(b, j)
  {
  }

  lemma AndAt(a: bv64, b: bv64, j: bv7)
    requires j < 64
    ensures BitAt(a & b, j) <==> BitAt(a, j) && BitAt(b, j)
  {
  }

  lemma AndNotAt(a: bv64, b: bv64, j: bv7)
    requires j < 64
    ensures BitAt(a & !b, j) <==> BitAt(a, j) && !BitAt(b, j)
  {
  }

  lemma WaysOr(a: bv64, b: bv64)
    ensures Ways(a | b) == Ways(a) + Ways(b)
  {
    forall i: nat | i < WORD ensures Bit(a | b, i) <==> Bit(a, i) || Bit(b, i) {
      OrAt(a, b, i as bv7);
    }
  }

  lemma WaysAnd(a: bv64, b: bv64)
    ensures Ways(a & b) == Ways(a) * Ways(b)
  {
    forall i: nat | i < WORD ensures Bit(a & b, i) <==> Bit(a, i) && Bit(b, i) {
      AndAt(a, b, i as bv7);
    }
  }

  /** Go's `a &^ b`. */
  lemma WaysAndNot(a: bv64, b: bv64)
    ensures Ways(a & !b) == Ways(a) - Ways(b)
  {
    forall i: nat | i < WORD ensures Bit(a & !b, i) <==> Bit(a, i) && !Bit(b, i) {
      AndNotAt(a, b, i as bv7);
    }
  }

  lemma ZeroAt(j: bv7)
    requires j < 64
    ensures !BitAt(0, j)
  {
  }

  lemma WaysZero()
    ensures Ways(0) == {}
  {
    forall i: nat | i < WORD ensures !Bit(0, i) { ZeroAt(i as bv7); }
  }

  // ----- a mask is determined by its ways

  lemma NothingAbove(m: bv64, j: bv7)
    requires j < 64 && m >> (j + 1) == 0 && !BitAt(m, j)
    ensures m >> j == 0
  {
  }

  lemma {:induction false} NoWaysFrom(m: bv64, j: bv7)
    requires j < 64
    requires forall k: bv7 :: k < 64 ==> !BitAt(m, k)
    ensures m >> j == 0
    decreases 64 - j
  {
    if j != 63 { NoWaysFrom(m, j + 1); }
    NothingAbove(m, j);
  }

  lemma NoWaysNoBits(m: bv64)
    requires Ways(m) == {}
    ensures forall k: bv7 :: k < 64 ==> !BitAt(m, k)
  {
    forall k: bv7 | k < 64 ensures !BitAt(m, k) {
      var i: nat := k as int;
      assert i as bv7 == k;
      assert i !in Ways(m);
    }
  }

  /** Testing a word against zero is testing its set of ways for emptiness. */
  lemma ZeroIffNoWays(m: bv64)
    ensures m == 0 <==> Ways(m) == {}
  {
    WaysZero();
    if Ways(m) == {} {
      NoWaysNoBits(m);
      NoWaysFrom(m, 0);
    }
  }

  lemma MeetIsDisjoint(a: bv64, b: bv64)
    ensures a & b == 0 <==> Ways(a) !! Ways(b)
  {
    WaysAnd(a, b);
    ZeroIffNoWays(a & b);
  }

  lemma DifferencesDecide(a: bv64, b: bv64)
    requires a & !b == 0 && b & !a == 0
    ensures a == b
  {
  }

  lemma SameWaysSameMask(a: bv64, b: bv64)
    requires Ways(a) == Ways(b)
    ensures a == b
  {
    WaysAndNot(a, b);
    WaysAndNot(b, a);
    ZeroIffNoWays(a & !b);
    ZeroIffNoWays(b & !a);
    DifferencesDecide(a, b);
  }

  // ----- single bits and contiguous masks

  lemma OneHotAt(i: bv7, j: bv7)
    requires i < 64 && j < 64
    ensures BitAt((1 as bv64) << i, j) <==> i == j
  {
  }

  /** A shifted one is the single way it names, or nothing outside the word. */
  lemma WaysOneHot(i: int)
    ensures Ways(OneHot(i)) == Single(i)
  {
    WaysZero();
    if 0 <= i < WORD {
      forall k: nat | k < WORD ensures Bit(OneHot(i), k) <==> i == k {
        IndexValue(i);
        IndexValue(k);
        OneHotAt(i as bv7, k as bv7);
      }
    }
  }

  /** The mask with bits start, ..., start + count - 1, as both mask builders make it. */
  function Mask(start: int, count: int): bv64
    decreases count
  {
    if count <= 0 then 0 else Mask(start, count - 1) | OneHot(start + count - 1)
  }

  lemma SpanNext(start: int, count: int)
    requires 0 < count
    ensures Span(start, count) == Span(start, count - 1) + Single(start + count - 1)
  {
    forall i: nat ensures i in Span(start, count) <==> i in Span(start, count - 1) || i in Single(start + count - 1) {
      assert Within(start, count, i) <==> Within(start, count - 1, i) || i in Single(start + count - 1);
    }
  }

  /** The way i, if the word has one. */
  ghost function Single(i: int): set<nat> {
    if 0 <= i < WORD then {i} else {}
  }

  lemma NoSpan(start: int, count: int)
    requires count <= 0
    ensures Span(start, count) == {}
  {
    forall i: nat ensures !Within(start, count, i) { }
  }

  lemma {:induction false} WaysMask(start: int, count: int)
    ensures Ways(Mask(start, count)) == Span(start, count)
    decreases count
  {
    if count <= 0 {
      WaysZero();
      NoSpan(start, count);
    } else {
      WaysMask(start, count - 1);
      SpanNext(start, count);
      WaysOneHot(start + count - 1);
      WaysOr(Mask(start, count - 1), OneHot(start + count - 1));
    }
  }

  lemma {:induction false} SpanSize(start: nat, count: nat)
    requires start + count <= WORD
    ensures |Span(start, count)| == count
    decreases count
  {
    if count == 0 {
      forall i: nat ensures !Within(start, count, i) { }
      assert Span(start, count) == {};
    } else {
      SpanSize(start, count - 1);
      var last: nat := start + count - 1;
      forall i: nat ensures i in Span(start, count) <==> i in Span(start, count - 1) || i == last {
        assert Within(start, count, i) <==> Within(start, count - 1, i) || i == last;
      }
      assert Span(start, count) == Span(start, count - 1) + {last};
      assert !Within(start, count - 1, last);
    }
  }

  /** Go's `m << n`: bits leave the word at the top, and a long shift leaves 0. */
  function ShiftLeft(m: bv64, n: nat): bv64
    decreases n
  {
    if n == 0 then m else ShiftLeft(m << 1, n - 1)
  }

  lemma DoubledAt(m: bv64, j: bv7)
    requires j < 63
    ensures BitAt(m << 1, j + 1) <==> BitAt(m, j)
  {
  }

  lemma DoubledLow(m: bv64)
    ensures !BitAt(m << 1, 0)
  {
  }

  lemma DoubledBit(m: bv64, i: nat)
    requires i < WORD
    ensures Bit(m << 1, i) <==> 0 < i && Bit(m, i - 1)
  {
    if i == 0 {
      DoubledLow(m);
    } else {
      IndexValue(i - 1);
      IndexSuccessor(i - 1);
      DoubledAt(m, (i - 1) as bv7);
    }
  }

  lemma WaysDoubled(m: bv64)
    ensures 0 !in Ways(m << 1)
    ensures forall i: nat | i + 1 < WORD :: i + 1 in Ways(m << 1) <==> i in Ways(m)
  {
    DoubledLow(m);
    forall i: nat | i + 1 < WORD ensures i + 1 in Ways(m << 1) <==> i in Ways(m) {
      DoubledBit(m, i + 1);
    }
  }

  lemma MaskOfWays(m: bv64, start: int, count: int)
    requires Ways(m) == Span(start, count)
    ensures m == Mask(start, count)
  {
    WaysMask(start, count);
    SameWaysSameMask(m, Mask(start, count));
  }

  lemma SpanRaised(w: set<nat>, start: nat, count: nat)
    requires 0 !in w && forall i | i in w :: i < WORD
    requires forall i: nat | i + 1 < WORD :: i + 1 in w <==> i in Span(start, count)
    ensures w == Span(start + 1, count)
  {
    forall i: nat ensures i in w <==> i in Span(start + 1, count) {
      if 0 < i < WORD {
        var k: nat := i - 1;
        assert k + 1 in w <==> k in Span(start, count);
        assert Within(start + 1, count, i) <==> Within(start, count, k);
      } else {
        assert !Within(start + 1, count, i);
      }
    }
  }

  lemma DoubledWays(m: bv64, start: nat, count: nat)
    requires Ways(m) == Span(start, count)
    ensures Ways(m << 1) == Span(start + 1, count)
  {
    WaysDoubled(m);
    SpanRaised(Ways(m << 1), start, count);
  }

  lemma {:induction false} ShiftedMask(m: bv64, start: nat, count: nat, n: nat)
    requires Ways(m) == Span(start, count)
    ensures Ways(ShiftLeft(m, n)) == Span(start + n, count)
    decreases n
  {
    if n != 0 {
      DoubledWays(m, start, count);
      ShiftedMask(m << 1, start + 1, count, n - 1);
    }
  }

  lemma NotAt(m: bv64, j: bv7)
    requires j < 64
    ensures BitAt(!m, j) <==> !BitAt(m, j)
  {
  }

  lemma AllAt(j: bv7)
    requires j < 64
    ensures BitAt(!0, j)
  {
  }

  lemma AllWays()
    ensures Ways(!0) == Span(0, WORD)
  {
    forall i: nat | i < WORD ensures Bit(!0, i) <==> Within(0, WORD, i) {
      IndexValue(i);
      AllAt(i as bv7);
    }
  }

  /** The ways below `count` are those that shifting a full word up leaves empty. */
  lemma LowOnes(high: bv64, count: nat)
    requires Ways(high) == Span(count, WORD)
    ensures Ways(!high) == Span(0, count)
  {
    forall i: nat | i < WORD ensures Bit(!high, i) <==> Within(0, count, i) {
      NotAt(high, i as bv7);
      assert i in Ways(high) <==> Within(count, WORD, i);
    }
  }

  lemma NegativeDoubled(power: bv64, high: bv64)
    requires power - 1 == !high
    ensures (power << 1) - 1 == !(high << 1)
  {
  }

  /** Both words shifted as far. */
  lemma {:induction false} PowerAndHigh(power: bv64, high: bv64, n: nat) returns (p: bv64, h: bv64)
    requires power - 1 == !high
    ensures p - 1 == !h
    ensures p == ShiftLeft(power, n) && h == ShiftLeft(high, n)
    decreases n
  {
    if n == 0 {
      p, h := power, high;
    } else {
      var twicePower, twiceHigh := DoubleBoth(power, high);
      p, h := PowerAndHigh(twicePower, twiceHigh, n - 1);
    }
  }

  lemma DoubleBoth(power: bv64, high: bv64) returns (p: bv64, h: bv64)
    requires power - 1 == !high
    ensures p == power << 1 && h == high << 1 && p - 1 == !h
  {
    p, h := power << 1, high << 1;
    NegativeDoubled(power, high);
  }

  lemma OnesWays(count: nat, high: bv64, ones: bv64)
    requires high == ShiftLeft(!0, count) && ones == !high
    ensures Ways(ones) == Span(0, count)
  {
    AllWays();
    ShiftedMask(!0, 0, WORD, count);
    LowOnes(high, count);
  }

  lemma ShiftedOnes(ones: bv64, word: bv64, start: nat, count: nat)
    requires Ways(ones) == Span(0, count) && word == ShiftLeft(ones, start)
    ensures word == Mask(start, count)
  {
    ShiftedMask(ones, 0, count, start);
    MaskOfWays(word, start, count);
  }

  /** Both mask builders compute ((1 << count) - 1) << start, for a whole word and past
      the end of the word too. */
  lemma MaskClosedForm(start: nat, count: nat)
    ensures Mask(start, count) == ShiftLeft(ShiftLeft(1, count) - 1, start)
  {
    var power, high := PowerAndHigh(1, !0, count);
    OnesWays(count, high, !high);
    ShiftedOnes(!high, ShiftLeft(!high, start), start, count);
  }

  // ----- counting ways by shifting

  ghost function Raised(s: set<nat>): set<nat> {
    set i | i in s :: i + 1
  }

  lemma {:induction false} RaisedSize(s: set<nat>)
    ensures |Raised(s)| == |s|
  {
    if s == {} {
      assert Raised(s) == {};
    } else {
      var x :| x in s;
      RaisedSize(s - {x});
      forall y: nat | 0 < y ensures y in Raised(s) <==> y in Raised(s - {x}) + {x + 1} {
        var k: nat := y - 1;
        assert y in Raised(s) <==> k in s;
        assert y in Raised(s - {x}) <==> k in s - {x};
      }
      assert 0 !in Raised(s);
      assert Raised(s) == Raised(s - {x}) + {x + 1};
    }
  }

  lemma HalvedAt(m: bv64, j: bv7)
    requires j < 63
    ensures BitAt(m >> 1, j) <==> BitAt(m, j + 1)
  {
  }

  lemma HalvedTop(m: bv64)
    ensures !BitAt(m >> 1, 63)
  {
  }

  lemma HalvedBit(m: bv64, i: nat)
    requires i < WORD
    ensures Bit(m >> 1, i) <==> i + 1 < WORD && Bit(m, i + 1)
  {
    IndexValue(i);
    if i + 1 < WORD {
      IndexSuccessor(i);
      HalvedAt(m, i as bv7);
    } else {
      HalvedTop(m);
    }
  }

  lemma LowestBit(m: bv64)
    ensures 0 in Ways(m) <==> m & 1 == 1
  {
    assert m >> (0 as bv7) == m;
  }

  lemma WaysHalved(m: bv64)
    ensures Ways(m) == (if 0 in Ways(m) then {0} else {}) + Raised(Ways(m >> 1))
  {
    var h := m >> 1;
    forall i: nat | i < WORD ensures i in Ways(h) <==> i + 1 in Ways(m) {
      HalvedBit(m, i);
    }
    RaisedWays(Ways(m), Ways(h));
  }

  lemma RaisedWays(w: set<nat>, h: set<nat>)
    requires forall i | i in w :: i < WORD
    requires forall i | i in h :: i < WORD
    requires forall i: nat :: i < WORD ==> (i in h <==> i + 1 in w)
    ensures w == (if 0 in w then {0} else {}) + Raised(h)
  {
    forall i: nat | 0 < i ensures i in w <==> i in Raised(h) {
      var j: nat := i - 1;
      assert i in Raised(h) <==> j in h;
      assert j < WORD ==> (j in h <==> j + 1 in w);
    }
  }

  /** Dropping the lowest bit drops exactly what that bit contributes to the count. */
  lemma PopcountHalved(m: bv64)
    ensures Popcount(m) == (if m & 1 == 1 then 1 else 0) + Popcount(m >> 1)
  {
    LowestBit(m);
    WaysHalved(m);
    RaisedSize(Ways(m >> 1));
  }

  /** `CATInfo.NumWays`: the number of set bits, by a shift loop. */
  method NumWays(cbmMask: bv64) returns (n: nat)
    ensures n == Popcount(cbmMask)
  {
    n := 0;
    var m := cbmMask;
    while m > 0
      invariant n + Popcount(m) == Popcount(cbmMask)
      decreases m
    {
      PopcountHalved(m);
      n := n + (m & 1) as int;
      m := m >> 1;
    }
    WaysZero();
  }

  lemma {:induction false} BoundedSize(s: set<nat>, n: nat)
    requires forall i | i in s :: i < n
    ensures |s| <= n
    decreases n
  {
    if n == 0 {
      assert s == {};
    } else {
      BoundedSize(s - {n - 1}, n - 1);
    }
  }

  /** A domain never has more ways than the word has bits. */
  lemma PopcountBound(m: bv64)
    ensures Popcount(m) <= WORD
  {
    BoundedSize(Ways(m), WORD);
  }
}
