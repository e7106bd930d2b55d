/** Words as numbers: every number below 2^64 is the value of one word, and a way is in a
  mask exactly when the number has that binary digit. */
module WordValues {
  import opened Words

  const WORD_LIMIT: int := 0x1_0000_0000_0000_0000

  function Power(base: nat, k: nat): (r: nat)
    ensures 0 < base ==> 0 < r
  {
    if k == 0 then 1 else
      var before := Power(base, k - 1);
      ProductNatural(base, before);
      base * before
  }

  lemma ProductNatural(a: int, b: int)
    requires 0 <= a && 0 <= b
    ensures 0 <= a * b && (0 < a && 0 < b ==> 0 < a * b)
  {
  }

  lemma SameQuotient(k: int, base: int, r: int)
    requires 0 < base && k * base == r && -base < r < base
    ensures k == 0
  {
    if 1 <= k {
      assert (k - 1) * base == k * base - base;
      ProductNatural(k - 1, base);
    } else if k <= -1 {
      assert (-k - 1) * base == -(k * base) - base;
      ProductNatural(-k - 1, base);
    }
  }

  /** Quotient and remainder are unique. */
  lemma LastDigit(n: nat, m: nat, d: nat, base: nat)
    requires 0 < base && d < base && n == m * base + d
    ensures n / base == m && n % base == d
    ensures 0 < m ==> base <= n
  {
    assert n == n / base * base + n % base;
    assert (m - n / base) * base == m * base - n / base * base;
    SameQuotient(m - n / base, base, n % base - d);
    if 0 < m {
      assert (m - 1) * base == m * base - base;
      ProductNatural(m - 1, base);
    }
  }

  lemma DoubledValue(m: bv64)
    requires m < 0x8000_0000_0000_0000
    ensures (m << 1) as int == 2 * (m as int)
  {
  }

  lemma DoubledPlusOne(m: bv64)
    requires m < 0x8000_0000_0000_0000
    ensures ((m << 1) | 1) as int == 2 * (m as int) + 1
  {
  }

  lemma HalfWord(m: bv64)
    requires m as int < 0x8000_0000_0000_0000
    ensures m < 0x8000_0000_0000_0000
  {
  }

  lemma WordInRange(m: bv64)
    ensures 0 <= m as int < WORD_LIMIT
  {
  }

  lemma WordOfValue(m: bv64)
    ensures (m as nat) as bv64 == m
  {
  }

  lemma {:induction false} WordFor(v: nat) returns (m: bv64)
    requires v < WORD_LIMIT
    ensures m as int == v
  {
    if v == 0 {
      m := 0;
    } else {
      var h := WordFor(v / 2);
      HalfWord(h);
      DoubledValue(h);
      DoubledPlusOne(h);
      m := if v % 2 == 0 then h << 1 else (h << 1) | 1;
    }
  }

  /** Converting a number that fits loses nothing. */
  lemma ValueStays(v: nat)
    requires v < WORD_LIMIT
    ensures (v as bv64) as int == v
  {
    var m := WordFor(v);
    WordOfValue(m);
  }

  lemma Halves(m: bv64)
    ensures m >> 1 < 0x8000_0000_0000_0000
    ensures m == if m & 1 == 1 then ((m >> 1) << 1) | 1 else (m >> 1) << 1
  {
  }

  /** The value of a word and of its upper 63 bits. */
  lemma HalvedValue(m: bv64)
    ensures m as int == 2 * ((m >> 1) as int) + (if m & 1 == 1 then 1 else 0)
  {
    Halves(m);
    DoubledValue(m >> 1);
    DoubledPlusOne(m >> 1);
  }

  /** A word without its lowest bit. */
  lemma Halve(m: bv64, i: nat) returns (h: bv64, one: bool)
    requires i < WORD
    ensures m as int == 2 * (h as int) + if one then 1 else 0
    ensures i in Ways(m) <==> if i == 0 then one else i - 1 in Ways(h)
  {
    h, one := m >> 1, m & 1 == 1;
    HalvedValue(m);
    if i == 0 {
      LowestBit(m);
    } else {
      HalvedBit(m, i - 1);
    }
  }

  /** The ways of a mask are the places of its binary ones. */
  lemma {:induction false} WayIsBinaryDigit(m: bv64, i: nat)
    requires i < WORD
    ensures i in Ways(m) <==> (m as int) / Power(2, i) % 2 == 1
    decreases i
  {
    var h, one := Halve(m, i);
    var v, k := m as int, h as int;
    WordInRange(h);
    if i == 0 {
      FirstDigit(v, k, one);
    } else {
      WayIsBinaryDigit(h, i - 1);
      HalfQuotient(v, k, one, i);
    }
  }

  lemma FirstDigit(v: nat, h: nat, one: bool)
    requires v == 2 * h + if one then 1 else 0
    ensures v / Power(2, 0) % 2 == 1 <==> one
  {
  }

  lemma HalfQuotient(v: nat, h: nat, one: bool, i: nat)
    requires v == 2 * h + (if one then 1 else 0) && 0 < i
    ensures v / Power(2, i) == h / Power(2, i - 1)
  {
    var p := Power(2, i - 1);
    var q, r := h / p, h % p;
    assert h == q * p + r;
    assert q * (2 * p) == 2 * (q * p);
    LastDigit(v, q, 2 * r + (if one then 1 else 0), 2 * p);
  }
}
