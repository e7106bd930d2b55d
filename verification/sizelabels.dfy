/** Human-readable cache sizes, and why they lose nothing. */
module SizeLabels {
  import opened Results
  import opened GoText
  import opened Names

  const KIB: int := 1024
  const MIB: int := 1024 * 1024
  const GIB: int := 1024 * 1024 * 1024

  /** `%.1f` of bytes / MiB where ten times the quotient is an integer. */
  function OneDecimal(bytes: int): string
    requires 0 <= bytes
  {
    var tenths := bytes * 10 / MIB;
    Decimal(tenths / 10) + "." + Decimal(tenths % 10)
  }

  /** `formatCacheSize`. */
  function FormatCacheSize(bytes: int): string {
    if bytes <= 0 then "0B"
    else if bytes % GIB == 0 then Decimal(bytes / GIB) + "GiB"
    else if bytes % MIB == 0 then Decimal(bytes / MIB) + "MiB"
    else if bytes >= MIB && bytes * 10 % MIB == 0 then OneDecimal(bytes) + "MiB"
    else if bytes % KIB == 0 then Decimal(bytes / KIB) + "KiB"
    else Decimal(bytes) + "B"
  }

  /** The number of bytes a label stands for: digits, perhaps a half, and a unit. */
  function Denoted(text: string): Option<int> {
    var n := |text|;
    if n >= 3 && text[n - 2] == 'i' then
      var body, unit := text[..n - 3], text[n - 3];
      if unit == 'G' then Scaled(body, GIB)
      else if unit == 'M' then Mebibytes(body)
      else if unit == 'K' then Scaled(body, KIB)
      else None
    else if n >= 1 then Scaled(text[..n - 1], 1)
    else None
  }

  function Mebibytes(body: string): Option<int> {
    if EndsWith(body, ".5") then
      match ParseDigits(TrimSuffix(body, ".5"), 10)
      case None => None
      case Some(n) => Some(n * MIB + MIB / 2)
    else Scaled(body, MIB)
  }

  function Scaled(digits: string, unit: int): Option<int> {
    match ParseDigits(digits, 10)
    case None => None
    case Some(n) => Some(n * unit)
  }

  /** Ten times a size is a whole number of MiB without the size being one only for
      an odd number of half MiB. */
  lemma OnlyHalves(bytes: int)
    requires 0 < bytes && bytes * 10 % MIB == 0 && bytes % MIB != 0
    ensures bytes % MIB == MIB / 2
    ensures bytes * 10 / MIB == bytes / MIB * 10 + 5
  {
    var q, r := bytes / 1048576, bytes % 1048576;
    var k := bytes * 10 / 1048576 - q * 10;
    assert bytes == q * 1048576 + r;
    assert r * 10 == k * 1048576;
    assert 0 < k < 10;
    assert k == 5;
  }

  lemma HalfText(bytes: int)
    requires 0 < bytes && bytes * 10 % MIB == 0 && bytes % MIB != 0
    ensures OneDecimal(bytes) == Decimal(bytes / MIB) + ".5"
  {
    OnlyHalves(bytes);
    FiveTenths(bytes * 10 / MIB, bytes / MIB);
  }

  lemma FiveTenths(tenths: int, q: int)
    requires tenths == q * 10 + 5
    ensures Decimal(tenths / 10) + "." + Decimal(tenths % 10) == Decimal(q) + ".5"
  {
    assert tenths / 10 == q && tenths % 10 == 5;
    assert Decimal(5) == "5";
    DotFive(Decimal(q));
  }

  lemma DotFive(s: string)
    ensures s + "." + "5" == s + ".5"
  {
  }

  lemma WithUnit(body: string, c: char)
    ensures var text := body + [c, 'i', 'B'];
      |text| >= 3 && text[|text| - 2] == 'i' && text[|text| - 3] == c && text[..|text| - 3] == body
  {
  }

  lemma PlainBytes(digits: string)
    requires digits != "" && digits[|digits| - 1] != 'i'
    ensures Denoted(digits + "B") == Scaled(digits, 1)
  {
    var text := digits + "B";
    assert text[..|text| - 1] == digits;
    assert text[|text| - 2] == digits[|digits| - 1];
  }

  lemma WholeMebibytes(digits: string)
    requires forall c | c in digits :: c != '.'
    ensures Mebibytes(digits) == Scaled(digits, MIB)
  {
    if EndsWith(digits, ".5") { DotInside(digits); }
  }

  lemma DotInside(digits: string)
    requires EndsWith(digits, ".5")
    ensures '.' in digits
  {
    assert digits[|digits| - 2..][0] == '.';
  }

  lemma HalfMebibytes(digits: string)
    ensures Mebibytes(digits + ".5")
      == match ParseDigits(digits, 10) case None => None case Some(n) => Some(n * MIB + MIB / 2)
  {
    var body := digits + ".5";
    assert body[|digits|..] == ".5";
    assert body[..|digits|] == digits;
  }

  /** The digits of a text, and the units that can follow them. */
  lemma DigitLabels(n: nat)
    ensures var d := Decimal(n);
      && Denoted(d + "GiB") == Some(n * GIB) && Denoted(d + "MiB") == Some(n * MIB)
      && Denoted(d + "KiB") == Some(n * KIB) && Denoted(d + "B") == Some(n)
  {
    var d := Decimal(n);
    DigitsRoundTrip(n, 10);
    DecimalChars(n);
    DecimalLacks(n, '.');
    DecimalLacks(n, 'i');
    WithUnit(d, 'G');
    WithUnit(d, 'M');
    WithUnit(d, 'K');
    PlainBytes(d);
    WholeMebibytes(d);
  }

  lemma HalfDigitLabel(n: nat, half: string)
    requires half == Decimal(n) + ".5"
    ensures Denoted(half + "MiB") == Some(n * MIB + MIB / 2)
  {
    DigitsRoundTrip(n, 10);
    WithUnit(half, 'M');
    HalfMebibytes(Decimal(n));
  }

  lemma WholeUnits(bytes: int, unit: int)
    requires 0 < unit && bytes % unit == 0
    ensures bytes / unit * unit == bytes
  {
  }

  lemma HalfLabel(bytes: int)
    requires 0 < bytes && bytes * 10 % MIB == 0 && bytes % MIB != 0
    ensures Denoted(OneDecimal(bytes) + "MiB") == Some(bytes)
  {
    HalfText(bytes);
    HalfSize(bytes);
    HalfDigitLabel(bytes / MIB, OneDecimal(bytes));
  }

  lemma HalfSize(bytes: int)
    requires 0 < bytes && bytes * 10 % MIB == 0 && bytes % MIB != 0
    ensures bytes / MIB * MIB + MIB / 2 == bytes
  {
    OnlyHalves(bytes);
  }

  lemma UnitLabel(bytes: int, unit: int)
    requires (unit == GIB || unit == MIB || unit == KIB) && 0 < bytes && bytes % unit == 0
    ensures var text := if unit == GIB then "GiB" else if unit == MIB then "MiB" else "KiB";
      Denoted(Decimal(bytes / unit) + text) == Some(bytes)
  {
    WholeUnits(bytes, unit);
    DigitLabels(bytes / unit);
  }

  /** Every positive size's label stands for exactly that number of bytes. */
  lemma LabelIsExact(bytes: int)
    requires 0 < bytes
    ensures Denoted(FormatCacheSize(bytes)) == Some(bytes)
  {
    if bytes % GIB == 0 {
      UnitLabel(bytes, GIB);
    } else if bytes % MIB == 0 {
      UnitLabel(bytes, MIB);
    } else if bytes >= MIB && bytes * 10 % MIB == 0 {
      HalfLabel(bytes);
    } else if bytes % KIB == 0 {
      UnitLabel(bytes, KIB);
    } else {
      DigitLabels(bytes);
    }
  }

  /** So distinct sizes have distinct labels. */
  lemma LabelsDiffer(a: int, b: int)
    requires 0 < a && 0 < b
    ensures FormatCacheSize(a) == FormatCacheSize(b) ==> a == b
  {
    LabelIsExact(a);
    LabelIsExact(b);
  }

  /** Which of the units the label ends with. */
  predicate EndsIn(text: string, gib: bool, mib: bool, kib: bool) {
    && (EndsWith(text, "GiB") <==> gib) && (EndsWith(text, "MiB") <==> mib) && (EndsWith(text, "KiB") <==> kib)
    && text != "" && text[|text| - 1] == 'B'
  }

  predicate HalfMebibyteMultiple(bytes: int) {
    MIB <= bytes && bytes % 524288 == 0
  }

  /** The label uses the largest unit in which the size is a whole number; half a MiB
      counts as well, from one MiB up. */
  lemma LabelUnit(bytes: int)
    ensures bytes <= 0 ==> FormatCacheSize(bytes) == "0B"
    ensures 0 < bytes ==>
            var whole, half := bytes % GIB == 0, HalfMebibyteMultiple(bytes);
      EndsIn(FormatCacheSize(bytes), whole, half && !whole, bytes % KIB == 0 && !half && !whole)
  {
    if 0 < bytes { LabelUnitOf(bytes); }
  }

  lemma LabelUnitOf(bytes: int)
    requires 0 < bytes
    ensures var whole, half := bytes % GIB == 0, HalfMebibyteMultiple(bytes);
      EndsIn(FormatCacheSize(bytes), whole, half && !whole, bytes % KIB == 0 && !half && !whole)
  {
    HalfMultiple(bytes);
    if bytes % GIB == 0 {
      UnitEnds(Decimal(bytes / GIB), "GiB");
    } else if bytes % MIB == 0 {
      UnitEnds(Decimal(bytes / MIB), "MiB");
    } else if bytes >= MIB && bytes * 10 % MIB == 0 {
      UnitEnds(OneDecimal(bytes), "MiB");
    } else if bytes % KIB == 0 {
      UnitEnds(Decimal(bytes / KIB), "KiB");
    } else {
      DecimalChars(bytes);
      NoUnit(Decimal(bytes));
    }
  }

  lemma HalfMultiple(bytes: int)
    requires 0 < bytes
    ensures HalfMebibyteMultiple(bytes) <==> bytes % MIB == 0 || (bytes >= MIB && bytes * 10 % MIB == 0)
    ensures bytes % GIB == 0 ==> bytes % MIB == 0
  {
    if bytes % MIB == 0 {
      WholeIsEven(bytes, bytes / MIB);
    } else {
      if bytes * 10 % MIB == 0 {
        OnlyHalves(bytes);
        HalfIsOdd(bytes, bytes / MIB);
      }
      if bytes % 524288 == 0 { TenHalves(bytes, bytes / 524288); }
      if bytes % GIB == 0 { WholeGibibytes(bytes, bytes / GIB); }
    }
  }

  lemma WholeIsEven(bytes: int, q: int)
    requires bytes == q * MIB
    ensures bytes % 524288 == 0
  {
    assert bytes == (2 * q) * 524288;
  }

  lemma HalfIsOdd(bytes: int, q: int)
    requires bytes == q * MIB + MIB / 2
    ensures bytes % 524288 == 0
  {
    assert bytes == (2 * q + 1) * 524288;
  }

  lemma WholeGibibytes(bytes: int, q: int)
    requires bytes == q * GIB
    ensures bytes % MIB == 0
  {
    assert bytes == (1024 * q) * 1048576;
  }

  lemma TenHalves(bytes: int, k: int)
    requires bytes == k * 524288
    ensures bytes * 10 % MIB == 0
  {
    assert bytes * 10 == (k * 5) * 1048576;
  }

  lemma UnitEnds(body: string, unit: string)
    requires unit == "GiB" || unit == "MiB" || unit == "KiB"
    ensures EndsIn(body + unit, unit == "GiB", unit == "MiB", unit == "KiB")
  {
    assert (body + unit)[|body|..] == unit;
    assert "GiB"[0] == 'G' && "MiB"[0] == 'M' && "KiB"[0] == 'K';
  }

  lemma NoUnit(digits: string)
    requires digits != "" && IsDigit(digits[|digits| - 1])
    ensures EndsIn(digits + "B", false, false, false)
  {
    var text := digits + "B";
    assert |text| >= 3 ==> text[|text| - 3..][1] == digits[|digits| - 1];
    assert "GiB"[1] == 'i' && "MiB"[1] == 'i' && "KiB"[1] == 'i';
  }
}
