/** The `--partition-sizes` flag: size tiers written as ways:count, comma separated. */
module SizesFlag {
  import opened Results
  import opened GoText
  import opened Numerals
  import opened Texts
  import opened Partitioning
  import opened Tiling

  datatype FlagError = Malformed | BadWays | BadCount | Empty

  /** One token: nothing when blank. */
  function ParseToken(raw: string): Result<Option<PartitionSpec>, FlagError> {
    var token := TrimSpace(raw);
    if token == "" then Ok(None) else
      match IndexOf(token, ':')
      case None => Err(Malformed)
      case Some(i) =>
        var ways, count := Atoi(token[..i]), Atoi(token[i + 1..]);
        if ways.None? || ways.value <= 0 then Err(BadWays)
        else if count.None? || count.value <= 0 then Err(BadCount)
        else Ok(Some(PartitionSpec(ways.value, count.value)))
  }

  /** The text spells the tier: its ways, a colon, its count. */
  predicate TierParts(token: string, a: string, b: string, spec: PartitionSpec) {
    token == a + ":" + b && ':' !in a && ReadsAs(a, spec.ways) && ReadsAs(b, spec.count)
  }

  /** White space aside, the token spells the tier. */
  ghost predicate SpellsTier(raw: string, spec: PartitionSpec) {
    exists token: string, a: string, b: string :: Trimmed(raw, token) && TierParts(token, a, b, spec)
  }

  /** A token is a tier exactly when it spells one with positive ways and count, and is
      skipped exactly when it is blank. */
  lemma TokenIff(raw: string, spec: PartitionSpec)
    ensures ParseToken(raw) == Ok(Some(spec)) <==> 0 < spec.ways && 0 < spec.count && SpellsTier(raw, spec)
    ensures ParseToken(raw) == Ok(None) <==> Blank(raw)
  {
    BlankIff(raw);
    if ParseToken(raw) == Ok(Some(spec)) { ParsedTier(raw, spec); }
    if 0 < spec.ways && 0 < spec.count && SpellsTier(raw, spec) { SpelledTier(raw, spec); }
  }

  lemma ParsedTier(raw: string, spec: PartitionSpec)
    requires ParseToken(raw) == Ok(Some(spec))
    ensures SpellsTier(raw, spec) && 0 < spec.ways && 0 < spec.count
  {
    var token := TrimSpace(raw);
    TrimIff(raw, token);
    var a, b := TierOf(token, spec);
    assert TierParts(token, a, b, spec);
  }

  lemma SpelledTier(raw: string, spec: PartitionSpec)
    requires SpellsTier(raw, spec) && 0 < spec.ways && 0 < spec.count
    ensures ParseToken(raw) == Ok(Some(spec))
  {
    var t: string, a: string, b: string :| Trimmed(raw, t) && TierParts(t, a, b, spec);
    TrimIff(raw, t);
    TierParsed(raw, t, a, b, spec);
  }

  lemma TierOf(token: string, spec: PartitionSpec) returns (a: string, b: string)
    requires IndexOf(token, ':').Some?
    requires var i := IndexOf(token, ':').value;
      Atoi(token[..i]) == Some(spec.ways) && Atoi(token[i + 1..]) == Some(spec.count)
    ensures TierParts(token, a, b, spec)
  {
    var i := IndexOf(token, ':').value;
    a, b := token[..i], token[i + 1..];
    AtoiIff(a, spec.ways);
    AtoiIff(b, spec.count);
  }

  lemma TierParsed(raw: string, token: string, a: string, b: string, spec: PartitionSpec)
    requires TrimSpace(raw) == token && TierParts(token, a, b, spec) && 0 < spec.ways && 0 < spec.count
    ensures ParseToken(raw) == Ok(Some(spec))
  {
    IndexOfFirst(a, ':', b);
    assert token[..|a|] == a && token[|a| + 1..] == b;
    AtoiIff(a, spec.ways);
    AtoiIff(b, spec.count);
  }

  /** The tiers of the tokens in order, or the first error. */
  function ParseTokens(tokens: seq<string>): Result<seq<PartitionSpec>, FlagError> {
    if tokens == [] then Ok([]) else
      match ParseToken(tokens[0])
      case Err(e) => Err(e)
      case Ok(spec) =>
        match ParseTokens(tokens[1..])
        case Err(e) => Err(e)
        case Ok(rest) => Ok((if spec.Some? then [spec.value] else []) + rest)
  }

  /** The meaning of the flag. */
  function ParseFlag(s: string): Result<seq<PartitionSpec>, FlagError> {
    match ParseTokens(Split(s, ','))
    case Err(e) => Err(e)
    case Ok(specs) => if specs == [] then Err(Empty) else Ok(specs)
  }

  function Prefixed(specs: seq<PartitionSpec>, r: Result<seq<PartitionSpec>, FlagError>)
    : Result<seq<PartitionSpec>, FlagError>
  {
    match r
    case Err(e) => Err(e)
    case Ok(rest) => Ok(specs + rest)
  }

  function TiersIn(raw: string): seq<PartitionSpec> {
    match ParseToken(raw) case Ok(Some(spec)) => [spec] case _ => []
  }

  lemma GoodToken(token: string, rest: seq<string>)
    requires ParseToken(token).Ok?
    ensures ParseTokens([token] + rest) == Prefixed(TiersIn(token), ParseTokens(rest))
  {
    assert ([token] + rest)[1..] == rest;
  }

  lemma PrefixedTwice(a: seq<PartitionSpec>, b: seq<PartitionSpec>, r: Result<seq<PartitionSpec>, FlagError>)
    ensures Prefixed(a, Prefixed(b, r)) == Prefixed(a + b, r)
  {
    if r.Ok? { assert a + (b + r.value) == a + b + r.value; }
  }

  lemma OneMoreToken(specs: seq<PartitionSpec>, tokens: seq<string>)
    requires tokens != [] && ParseToken(tokens[0]).Ok?
    ensures Prefixed(specs, ParseTokens(tokens)) == Prefixed(specs + TiersIn(tokens[0]), ParseTokens(tokens[1..]))
  {
    GoodToken(tokens[0], tokens[1..]);
    assert tokens == [tokens[0]] + tokens[1..];
    PrefixedTwice(specs, TiersIn(tokens[0]), ParseTokens(tokens[1..]));
  }

  lemma PrefixedNothing(r: Result<seq<PartitionSpec>, FlagError>)
    ensures Prefixed([], r) == r
  {
    if r.Ok? { assert [] + r.value == r.value; }
  }

  /** `ParsePartitionSizes`. */
  method ParsePartitionSizes(s: string) returns (r: Result<seq<PartitionSpec>, FlagError>)
    ensures r == ParseFlag(s)
    ensures r.Ok? ==> r.value != [] && forall x | x in r.value :: 0 < x.ways && 0 < x.count
  {
    var tokens := Split(s, ',');
    var specs, i := [], 0;
    assert tokens[0..] == tokens;
    PrefixedNothing(ParseTokens(tokens));
    while i < |tokens|
      invariant i <= |tokens|
      invariant ParseTokens(tokens) == Prefixed(specs, ParseTokens(tokens[i..]))
      invariant forall x | x in specs :: 0 < x.ways && 0 < x.count
    {
      assert tokens[i..][1..] == tokens[i + 1..];
      var spec := ParseToken(tokens[i]);
      if spec.Err? {
        return Err(spec.error);
      }
      OneMoreToken(specs, tokens[i..]);
      assert specs + [] == specs;
      if spec.value.Some? {
        specs := specs + [spec.value.value];
      }
      i := i + 1;
    }
    assert tokens[i..] == [] && specs + [] == specs;
    if |specs| == 0 {
      return Err(Empty);
    }
    return Ok(specs);
  }

  /** A number above zero in decimal digits, perhaps signed. */
  ghost predicate Positive(s: string) {
    exists n :: 0 < n && ReadsAs(s, n)
  }

  predicate Halves(token: string, a: string, b: string) {
    token == a + ":" + b && ':' !in a
  }

  /** What each error means: no colon, or a part in front of or behind the first colon that
      is not a positive number, the front part being looked at first. */
  lemma TokenErrorIff(raw: string)
    ensures var token := TrimSpace(raw);
      && (ParseToken(raw) == Err(Malformed) <==> token != "" && ':' !in token)
      && (ParseToken(raw) == Err(BadWays) <==> exists a: string, b: string :: Halves(token, a, b) && !Positive(a))
      && (ParseToken(raw) == Err(BadCount) <==>
            exists a: string, b: string :: Halves(token, a, b) && Positive(a) && !Positive(b))
  {
    var token := TrimSpace(raw);
    if i: nat :| IndexOf(token, ':') == Some(i) {
      assert Halves(token, token[..i], token[i + 1..]);
      PositiveIff(token[..i]);
      PositiveIff(token[i + 1..]);
      forall a: string, b: string | Halves(token, a, b) ensures a == token[..i] && b == token[i + 1..] {
        IndexOfFirst(a, ':', b);
      }
    }
  }

  lemma PositiveIff(s: string)
    ensures Positive(s) <==> Atoi(s).Some? && 0 < Atoi(s).value
  {
    if Atoi(s).Some? { AtoiIff(s, Atoi(s).value); }
    forall n | 0 < n && ReadsAs(s, n) ensures Atoi(s) == Some(n) {
      AtoiIff(s, n);
    }
  }

  /** The tiers come in the order of their tokens, or else the first bad token decides. */
  lemma FirstErrorDecides(good: seq<string>, rest: seq<string>)
    requires forall t | t in good :: ParseToken(t).Ok?
    ensures rest == [] ==> ParseTokens(good + rest) == Ok(Collect(TiersIn, good))
    ensures rest != [] && ParseToken(rest[0]).Err? ==> ParseTokens(good + rest) == Err(ParseToken(rest[0]).error)
  {
    GoodTokens(good, rest);
    assert Collect(TiersIn, good) + [] == Collect(TiersIn, good);
  }

  lemma {:induction false} GoodTokens(good: seq<string>, rest: seq<string>)
    requires forall t | t in good :: ParseToken(t).Ok?
    ensures ParseTokens(good + rest) == Prefixed(Collect(TiersIn, good), ParseTokens(rest))
    decreases |good|
  {
    if |good| == 0 {
      assert good + rest == rest;
      PrefixedNothing(ParseTokens(rest));
    } else {
      var front, last := good[..|good| - 1], good[|good| - 1];
      assert last in good && good + rest == front + ([last] + rest);
      GoodTokens(front, [last] + rest);
      GoodToken(last, rest);
      PrefixedTwice(Collect(TiersIn, front), TiersIn(last), ParseTokens(rest));
    }
  }

  /** The flag text for some tiers. */
  function Tokens(specs: seq<PartitionSpec>): (r: seq<string>)
    ensures |r| == |specs|
    ensures forall i | 0 <= i < |specs| :: r[i] == Decimal(specs[i].ways) + ":" + Decimal(specs[i].count)
  {
    if specs == [] then [] else [Decimal(specs[0].ways) + ":" + Decimal(specs[0].count)] + Tokens(specs[1..])
  }

  lemma TokenText(w: string, c: string, spec: PartitionSpec)
    requires ':' !in w && Solid(w) && Solid(c) && 0 < spec.ways && 0 < spec.count
    requires Atoi(w) == Some(spec.ways) && Atoi(c) == Some(spec.count)
    ensures ParseToken(w + ":" + c) == Ok(Some(spec))
  {
    var t := w + ":" + c;
    assert t[0] == w[0] && t[|t| - 1] == c[|c| - 1];
    TrimSolid(t);
    IndexOfFirst(w, ':', c);
    assert t[..|w|] == w && t[|w| + 1..] == c;
  }

  lemma DecimalIsSolid(n: nat)
    ensures Solid(Decimal(n))
  {
    var s := Decimal(n);
    DecimalChars(n);
    assert IsDigit(s[0]) && IsDigit(s[|s| - 1]);
  }

  lemma TokenRoundTrip(spec: PartitionSpec)
    requires 0 < spec.ways <= MAX_INT64 && 0 < spec.count <= MAX_INT64
    ensures var t := Decimal(spec.ways) + ":" + Decimal(spec.count);
      ',' !in t && ParseToken(t) == Ok(Some(spec))
  {
    DecimalIsSolid(spec.ways);
    DecimalIsSolid(spec.count);
    DecimalLacks(spec.ways, ':');
    DecimalLacks(spec.ways, ',');
    DecimalLacks(spec.count, ',');
    DecimalRoundTrip(spec.ways);
    DecimalRoundTrip(spec.count);
    TokenText(Decimal(spec.ways), Decimal(spec.count), spec);
  }

  lemma {:induction false} TokensRoundTrip(specs: seq<PartitionSpec>)
    requires forall x | x in specs :: 0 < x.ways <= MAX_INT64 && 0 < x.count <= MAX_INT64
    ensures ParseTokens(Tokens(specs)) == Ok(specs)
    ensures forall t | t in Tokens(specs) :: ',' !in t
  {
    if specs != [] {
      TokenRoundTrip(specs[0]);
      TokensRoundTrip(specs[1..]);
      assert specs == [specs[0]] + specs[1..];
    }
  }

  /** Writing tiers as a flag and parsing the flag gives the tiers back. */
  lemma FlagRoundTrip(specs: seq<PartitionSpec>)
    requires specs != [] && forall x | x in specs :: 0 < x.ways <= MAX_INT64 && 0 < x.count <= MAX_INT64
    ensures ParseFlag(Join(Tokens(specs), ',')) == Ok(specs)
  {
    TokensRoundTrip(specs);
    SplitJoin(Tokens(specs), ',');
  }

  /** Parsed tiers are sane, so they tile when they are accepted. */
  lemma {:induction false} ParsedTiersAreSane(tokens: seq<string>)
    ensures ParseTokens(tokens).Ok? ==> Sane(ParseTokens(tokens).value)
  {
    if tokens != [] { ParsedTiersAreSane(tokens[1..]); }
  }
}
