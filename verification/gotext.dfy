/** The Go text functions the driver formats and parses with.

  Text is a sequence of characters; `fmt`, `strings` and `strconv` are modelled
  by the functions below, including their error cases.
 */
module GoText {
  import opened Results

  // ----- numbers

  function DigitChar(d: nat): char
    requires d < 16
  {
    "0123456789abcdef"[d]
  }

  /** The value of a digit, in either case, as `strconv` reads it. */
  function DigitValue(c: char): Option<nat> {
    if '0' <= c <= '9' then Some(c as nat - '0' as nat)
    else if 'a' <= c <= 'f' then Some(c as nat - 'a' as nat + 10)
    else if 'A' <= c <= 'F' then Some(c as nat - 'A' as nat + 10)
    else None
  }

  predicate IsBase(base: nat) {
    base == 10 || base == 16
  }

  /** `%d` and `%x` of a natural number: no leading zeros, lower case. */
  function Digits(n: nat, base: nat): (s: string)
    requires IsBase(base)
    ensures |s| >= 1
    decreases n
  {
    if n < base then [DigitChar(n)] else Digits(n / base, base) + [DigitChar(n % base)]
  }

  /** At least one digit of the base and nothing else. */
  function ParseDigits(s: string, base: nat): Option<nat>
    requires IsBase(base)
  {
    if |s| == 0 then None else
      match DigitValue(s[|s| - 1])
      case None => None
      case Some(d) =>
        if d >= base then None
        else if |s| == 1 then Some(d)
        else match ParseDigits(s[..|s| - 1], base)
             case None => None
             case Some(v) => Some(v * base + d)
  }

  lemma DigitRoundTrip(d: nat)
    requires d < 16
    ensures DigitValue(DigitChar(d)) == Some(d)
  {
  }

  lemma {:induction false} DigitsRoundTrip(n: nat, base: nat)
    requires IsBase(base)
    ensures ParseDigits(Digits(n, base), base) == Some(n)
    decreases n
  {
    if n < base {
      DigitRoundTrip(n);
    } else {
      DigitsRoundTrip(n / base, base);
      DigitRoundTrip(n % base);
      ParseLast(Digits(n / base, base), DigitChar(n % base), n / base, n % base, base);
      assert n / base * base + n % base == n;
    }
  }

  lemma ParseLast(s: string, c: char, v: nat, d: nat, base: nat)
    requires IsBase(base) && d < base && |s| >= 1 && DigitValue(c) == Some(d)
    requires ParseDigits(s, base) == Some(v)
    ensures ParseDigits(s + [c], base) == Some(v * base + d)
  {
    assert (s + [c])[..|s|] == s;
  }

  predicate IsDigit(c: char) {
    DigitValue(c).Some?
  }

  lemma {:induction false} DigitsAreDigits(n: nat, base: nat)
    requires IsBase(base)
    ensures forall c | c in Digits(n, base) :: IsDigit(c)
    decreases n
  {
    if n < base {
      DigitRoundTrip(n);
    } else {
      DigitRoundTrip(n % base);
      DigitsAreDigits(n / base, base);
    }
  }

  const MAX_INT64: int := 0x7FFF_FFFF_FFFF_FFFF

  predicate IsInt64(n: int) {
    -MAX_INT64 - 1 <= n <= MAX_INT64
  }

  /** `%d`. */
  function Decimal(n: int): string {
    if n < 0 then "-" + Digits(-n, 10) else Digits(n, 10)
  }

  /** `strconv.Atoi`: an optional sign, decimal digits, a 64-bit value. */
  function Atoi(s: string): Option<int> {
    if s == "" then None else
      var negative := s[0] == '-';
      var body := if s[0] == '-' || s[0] == '+' then s[1..] else s;
      match ParseDigits(body, 10)
      case None => None
      case Some(v) =>
        var n: int := if negative then 0 - v as int else v;
        if IsInt64(n) then Some(n) else None
  }

  /** `strconv.ParseUint(s, 16, 64)`. */
  function ParseHex64(s: string): Option<bv64> {
    match ParseDigits(s, 16)
    case None => None
    case Some(v) => if v < 0x1_0000_0000_0000_0000 then Some(v as bv64) else None
  }

  /** `%x` of a word. */
  function Hex(m: bv64): string {
    Digits(m as nat, 16)
  }

  lemma AtoiUnsigned(s: string, v: nat)
    requires s != "" && IsDigit(s[0]) && ParseDigits(s, 10) == Some(v) && v <= MAX_INT64
    ensures Atoi(s) == Some(v)
  {
    assert s[0] != '-' && s[0] != '+';
  }

  lemma AtoiNegative(s: string, v: nat)
    requires ParseDigits(s, 10) == Some(v) && v <= MAX_INT64 + 1
    ensures Atoi("-" + s) == Some(0 - v as int)
  {
    assert ("-" + s)[1..] == s;
  }

  lemma DecimalRoundTrip(n: int)
    requires IsInt64(n)
    ensures Atoi(Decimal(n)) == Some(n)
  {
    if n < 0 {
      DigitsRoundTrip(-n, 10);
      AtoiNegative(Digits(-n, 10), -n);
    } else {
      DigitsRoundTrip(n, 10);
      DigitsAreDigits(n, 10);
      AtoiUnsigned(Digits(n, 10), n);
    }
  }

  lemma HexRoundTrip(m: bv64)
    ensures ParseHex64(Hex(m)) == Some(m)
  {
    var n := m as nat;
    DigitsRoundTrip(n, 16);
    assert n as bv64 == m;
  }

  /** Decimal text consists of digits after at most one leading minus sign. */
  lemma DecimalChars(n: int)
    ensures forall i | 0 <= i < |Decimal(n)| :: IsDigit(Decimal(n)[i]) || (i == 0 && n < 0 && Decimal(n)[i] == '-')
    ensures Decimal(n) != ""
  {
    var k := if n < 0 then -n else n;
    DigitsAreDigits(k, 10);
    forall i | 0 <= i < |Decimal(n)|
      ensures IsDigit(Decimal(n)[i]) || (i == 0 && n < 0 && Decimal(n)[i] == '-')
    {
      if n < 0 && 0 < i { assert Decimal(n)[i] == Digits(k, 10)[i - 1]; }
    }
  }

  lemma {:induction false} FirstDigit(n: nat)
    ensures '0' <= Digits(n, 10)[0] <= '9'
  {
    if n >= 10 { FirstDigit(n / 10); }
  }

  /** Decimal text starts with a sign or a decimal digit. */
  lemma DecimalStart(n: int)
    ensures Decimal(n) != "" && (Decimal(n)[0] == '-' || '0' <= Decimal(n)[0] <= '9')
  {
    if 0 <= n { FirstDigit(n); }
  }

  /** A character that is neither a digit nor a sign does not occur. */
  lemma DecimalLacks(n: int, c: char)
    requires !IsDigit(c) && c != '-'
    ensures c !in Decimal(n)
  {
    DecimalChars(n);
  }

  lemma HexLacks(m: bv64, c: char)
    requires !IsDigit(c)
    ensures c !in Hex(m)
  {
    DigitsAreDigits(m as nat, 16);
  }

  // ----- searching and splitting

  /** `strings.Index` for a one-character pattern. */
  function IndexOf(s: string, c: char): (r: Option<nat>)
    ensures r.Some? ==> r.value < |s| && s[r.value] == c && c !in s[..r.value]
    ensures r.None? <==> c !in s
  {
    if s == "" then None
    else if s[0] == c then Some(0)
    else match IndexOf(s[1..], c)
         case None => None
         case Some(i) =>
           assert s[..i + 1] == [s[0]] + s[1..][..i];
           Some(i + 1)
  }

  lemma {:induction false} IndexOfFirst(a: string, c: char, b: string)
    requires c !in a
    ensures IndexOf(a + [c] + b, c) == Some(|a|)
  {
    var s := a + [c] + b;
    if a != "" {
      IndexOfFirst(a[1..], c, b);
      assert s[1..] == a[1..] + [c] + b;
    }
  }

  /** `strings.Split` with a one-character separator. */
  function Split(s: string, sep: char): (r: seq<string>)
    ensures |r| >= 1
  {
    match IndexOf(s, sep)
    case None => [s]
    case Some(i) => [s[..i]] + Split(s[i + 1..], sep)
  }

  /** `strings.Join` with a one-character separator. */
  function Join(parts: seq<string>, sep: char): string {
    if |parts| == 0 then ""
    else if |parts| == 1 then parts[0]
    else parts[0] + [sep] + Join(parts[1..], sep)
  }

  lemma SplitFirst(a: string, sep: char, b: string)
    requires sep !in a
    ensures Split(a + [sep] + b, sep) == [a] + Split(b, sep)
  {
    var s := a + [sep] + b;
    IndexOfFirst(a, sep, b);
    assert s[..|a|] == a;
    assert s[|a| + 1..] == b;
  }

  lemma {:induction false} SplitJoin(parts: seq<string>, sep: char)
    requires |parts| >= 1 && forall p | p in parts :: sep !in p
    ensures Split(Join(parts, sep), sep) == parts
  {
    if |parts| > 1 {
      SplitJoin(parts[1..], sep);
      SplitFirst(parts[0], sep, Join(parts[1..], sep));
      assert parts == [parts[0]] + parts[1..];
    }
  }

  // ----- trimming

  /** `unicode.IsSpace`. */
  predicate IsSpace(c: char) {
    || c == ' ' || '\t' <= c <= '\r' || c == '\U{85}' || c == '\U{A0}' || c == '\U{1680}'
    || '\U{2000}' <= c <= '\U{200A}' || c == '\U{2028}' || c == '\U{2029}'
    || c == '\U{202F}' || c == '\U{205F}' || c == '\U{3000}'
  }

  function TrimLeft(s: string): string {
    if s != "" && IsSpace(s[0]) then TrimLeft(s[1..]) else s
  }

  function TrimRight(s: string): string {
    if s != "" && IsSpace(s[|s| - 1]) then TrimRight(s[..|s| - 1]) else s
  }

  /** `strings.TrimSpace`. */
  function TrimSpace(s: string): string {
    TrimRight(TrimLeft(s))
  }

  /** Text with a visible first and last character. */
  predicate Solid(s: string) {
    s != "" && !IsSpace(s[0]) && !IsSpace(s[|s| - 1])
  }

  lemma TrimSolid(s: string)
    requires Solid(s)
    ensures TrimSpace(s) == s
    ensures TrimSpace(s + "\n") == s
  {
    var t := s + "\n";
    assert t[0] == s[0];
    assert IsSpace(t[|t| - 1]);
    assert t[..|t| - 1] == s;
  }
}
