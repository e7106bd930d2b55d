/** What numbers look like as text, digit by digit and by character code.

  Printing and parsing are each compared with these definitions, not with one another.
 */
module Numerals {
  import opened Results
  import opened WordValues
  import opened GoText

  /** The value of a hexadecimal digit of either case, -1 for any other character. */
  function Code(c: char): int {
    var k := c as int;
    if '0' as int <= k <= '9' as int then k - '0' as int
    else if 'a' as int <= k <= 'f' as int then k - 'a' as int + 10
    else if 'A' as int <= k <= 'F' as int then k - 'A' as int + 10
    else -1
  }

  /** The positional value: each digit times the power of its place. */
  function Value(s: string, base: nat): int {
    if s == "" then 0 else Code(s[0]) * Power(base, |s| - 1) + Value(s[1..], base)
  }

  /** At least one digit of the base, and nothing else. */
  predicate IsNumeral(s: string, base: nat) {
    s != "" && forall c | c in s :: 0 <= Code(c) < base
  }

  /** A numeral in lower case without leading zeros. */
  predicate Printed(s: string, base: nat, n: int) {
    && IsNumeral(s, base) && Value(s, base) == n
    && (|s| == 1 || s[0] != '0') && forall c | c in s :: !('A' <= c <= 'F')
  }

  /** A decimal number with a minus sign when it is negative. */
  predicate IsDecimal(s: string, n: int) {
    if n < 0 then s != "" && s[0] == '-' && Printed(s[1..], 10, -n) else Printed(s, 10, n)
  }

  /** Text that stands for a 64-bit integer: a sign or none, then decimal digits. */
  predicate ReadsAs(s: string, n: int) {
    && IsInt64(n) && s != ""
    && if s[0] == '-' then IsNumeral(s[1..], 10) && n == -Value(s[1..], 10)
       else if s[0] == '+' then IsNumeral(s[1..], 10) && n == Value(s[1..], 10)
       else IsNumeral(s, 10) && n == Value(s, 10)
  }

  /** Text that stands for a word: hexadecimal digits. */
  predicate HexReadsAs(s: string, m: bv64) {
    IsNumeral(s, 16) && Value(s, 16) == m as int
  }

  // ----- one digit

  lemma DigitCharCode(d: nat)
    requires d < 16
    ensures d < 10 ==> DigitChar(d) as int == '0' as int + d
    ensures 10 <= d ==> DigitChar(d) as int == 'a' as int + d - 10
  {
  }

  lemma DigitValueIff(c: char, d: nat)
    ensures DigitValue(c) == Some(d)
      <==> || (d < 10 && c as int == '0' as int + d)
           || (10 <= d < 16 && (c as int == 'a' as int + d - 10 || c as int == 'A' as int + d - 10))
  {
  }

  lemma DigitIsCode(c: char)
    ensures DigitValue(c) == if Code(c) < 0 then None else Some(Code(c))
  {
  }

  /** One character for each digit, lower case. */
  lemma CharOfCode(c: char, d: nat)
    requires d < 16
    ensures c == DigitChar(d) <==> Code(c) == d && !('A' <= c <= 'F')
  {
    DigitCharCode(d);
  }

  // ----- values

  lemma {:induction false} ValueNext(s: string, c: char, base: nat)
    ensures Value(s + [c], base) == Value(s, base) * base + Code(c)
  {
    if s == "" {
      assert (s + [c])[1..] == "";
      assert Value("", base) == 0 && Power(base, 0) == 1;
    } else {
      ValueNext(s[1..], c, base);
      assert (s + [c])[1..] == s[1..] + [c];
      Regroup(Code(s[0]), base, Power(base, |s| - 1), Value(s[1..], base), Code(c));
    }
  }

  lemma Regroup(d: int, base: int, p: int, rest: int, last: int)
    ensures d * (base * p) + (rest * base + last) == (d * p + rest) * base + last
  {
    assert (d * p + rest) * base == d * p * base + rest * base;
    assert d * (base * p) == d * p * base;
  }

  lemma {:induction false} ValueNatural(s: string, base: nat)
    requires forall c | c in s :: 0 <= Code(c) < base
    ensures 0 <= Value(s, base)
    ensures s != "" && Code(s[0]) != 0 ==> 0 < Value(s, base)
  {
    if s != "" {
      ValueNatural(s[1..], base);
      assert s[0] in s;
      ProductNatural(Code(s[0]), Power(base, |s| - 1));
    }
  }

  lemma NumeralNext(s: string, c: char, base: nat)
    requires s != ""
    ensures IsNumeral(s + [c], base) <==> IsNumeral(s, base) && 0 <= Code(c) < base
  {
    assert c in s + [c];
    assert forall x | x in s :: x in s + [c];
  }

  // ----- parsing

  /** Parsing succeeds exactly on numerals and gives their positional value. */
  lemma {:induction false} ParseDigitsIff(s: string, base: nat)
    requires IsBase(base)
    ensures ParseDigits(s, base).Some? <==> IsNumeral(s, base)
    ensures ParseDigits(s, base).Some? ==> ParseDigits(s, base).value == Value(s, base)
  {
    if |s| != 0 {
      var front, c := s[..|s| - 1], s[|s| - 1];
      assert s == front + [c];
      DigitIsCode(c);
      ValueNext(front, c, base);
      if front == "" {
        assert Value(front, base) == 0;
        assert c in s;
      } else {
        ParseDigitsIff(front, base);
        NumeralNext(front, c, base);
      }
    }
  }

  /** `Atoi` accepts exactly the text of 64-bit integers. */
  lemma AtoiIff(s: string, n: int)
    ensures Atoi(s) == Some(n) <==> ReadsAs(s, n)
  {
    if s != "" {
      ParseDigitsIff(s, 10);
      ParseDigitsIff(s[1..], 10);
    }
  }

  /** `ParseUint` accepts exactly the text of 64-bit words. */
  lemma ParseHexIff(s: string, m: bv64)
    ensures ParseHex64(s) == Some(m) <==> HexReadsAs(s, m)
  {
    ParseDigitsIff(s, 16);
    if ParseDigits(s, 16).Some? {
      ValueOfWord(ParseDigits(s, 16).value, m);
    }
  }

  lemma ValueOfWord(v: nat, m: bv64)
    ensures v < WORD_LIMIT ==> (v as bv64 == m <==> v == m as int)
    ensures WORD_LIMIT <= v ==> v != m as int
  {
    WordInRange(m);
    WordOfValue(m);
    if v < WORD_LIMIT { ValueStays(v); }
  }

  // ----- printing

  /** What is printed is the one numeral of the number that has no leading zero and no
      upper-case digit. */
  lemma {:induction false} DigitsIff(s: string, base: nat, n: nat)
    requires IsBase(base)
    ensures s == Digits(n, base) <==> Printed(s, base, n)
  {
    DigitsArePrinted(n, base);
    if Printed(s, base, n) { PrintedIsDigits(s, base, n); }
  }

  lemma {:induction false} DigitsArePrinted(n: nat, base: nat)
    requires IsBase(base)
    ensures Printed(Digits(n, base), base, n)
    ensures n != 0 ==> Digits(n, base)[0] != '0'
    decreases n
  {
    if n < base {
      var s := [DigitChar(n)];
      CharOfCode(DigitChar(n), n);
      ValueNext("", DigitChar(n), base);
      assert "" + s == s && Value("", base) == 0;
      if n != 0 { DigitCharCode(n); }
    } else {
      var front, c := Digits(n / base, base), DigitChar(n % base);
      DigitsArePrinted(n / base, base);
      CharOfCode(c, n % base);
      ValueNext(front, c, base);
      NumeralNext(front, c, base);
      assert n / base * base + n % base == n;
      assert (front + [c])[0] == front[0];
    }
  }

  lemma {:induction false} PrintedIsDigits(s: string, base: nat, n: nat)
    requires IsBase(base) && Printed(s, base, n)
    ensures s == Digits(n, base)
    decreases |s|
  {
    var front, c := s[..|s| - 1], s[|s| - 1];
    assert s == front + [c] && c in s;
    ValueNext(front, c, base);
    CharOfCode(c, Code(c));
    if front == "" {
      assert Value(front, base) == 0;
    } else {
      NumeralNext(front, c, base);
      ValueNatural(front, base);
      assert front[0] == s[0] && forall x | x in front :: x in s;
      var m: nat := Value(front, base);
      LastDigit(n, m, Code(c), base);
      assert 0 < m by { FirstIsNotZero(front); }
      PrintedIsDigits(front, base, m);
    }
  }

  lemma FirstIsNotZero(s: string)
    requires s != "" && s[0] != '0' && 0 <= Code(s[0])
    ensures Code(s[0]) != 0
  {
  }

  /** `%d`. */
  lemma DecimalIff(s: string, n: int)
    ensures s == Decimal(n) <==> IsDecimal(s, n)
  {
    if n < 0 {
      AfterSign(s, Digits(-n, 10));
      if s != "" { DigitsIff(s[1..], 10, -n); }
    } else {
      DigitsIff(s, 10, n);
    }
  }

  lemma AfterSign(s: string, d: string)
    ensures s == "-" + d <==> s != "" && s[0] == '-' && s[1..] == d
  {
  }

  /** `%x` of a word. */
  lemma HexIff(s: string, m: bv64)
    ensures s == Hex(m) <==> Printed(s, 16, m as int)
  {
    DigitsIff(s, 16, m as nat);
  }
}
