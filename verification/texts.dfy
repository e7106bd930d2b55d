/** Where lines, segments and trimmed parts stand in a text. */
module Texts {
  import opened Results
  import opened GoText

  // ----- joining

  /** Where part i begins in the joined text. */
  function Offset(parts: seq<string>, i: nat): nat
    requires i <= |parts|
  {
    if i == 0 then 0 else Offset(parts, i - 1) + |parts[i - 1]| + 1
  }

  lemma {:induction false} OffsetOfRest(parts: seq<string>, i: nat)
    requires 0 < i <= |parts|
    ensures Offset(parts, i) == |parts[0]| + 1 + Offset(parts[1..], i - 1)
  {
    if i > 1 {
      OffsetOfRest(parts, i - 1);
      assert parts[1..][i - 2] == parts[i - 1];
    }
  }

  /** The part stands at this place, in front of the end or of a separator. */
  predicate StandsAt(text: string, start: nat, part: string, sep: char, last: bool) {
    var end := start + |part|;
    && end <= |text| && text[start..end] == part
    && if last then end == |text| else end < |text| && text[end] == sep
  }

  /** The joined text has every part at its place, in order, and a separator behind every
      part but the last. */
  lemma {:induction false} JoinedPart(parts: seq<string>, sep: char, i: nat)
    requires i < |parts|
    ensures StandsAt(Join(parts, sep), Offset(parts, i), parts[i], sep, i == |parts| - 1)
    decreases |parts|
  {
    if |parts| > 1 {
      var rest := Join(parts[1..], sep);
      if i == 0 {
        StandsFirst(parts[0], sep, rest);
      } else {
        JoinedPart(parts[1..], sep, i - 1);
        OffsetOfRest(parts, i);
        StandsBehind(parts[0] + [sep], rest, Offset(parts[1..], i - 1), parts[i], sep, i == |parts| - 1);
      }
    }
  }

  lemma StandsFirst(part: string, sep: char, rest: string)
    ensures StandsAt(part + [sep] + rest, 0, part, sep, false)
  {
  }

  lemma StandsBehind(head: string, rest: string, start: nat, part: string, sep: char, last: bool)
    requires StandsAt(rest, start, part, sep, last)
    ensures StandsAt(head + rest, |head| + start, part, sep, last)
  {
    var text, n := head + rest, |head| + start;
    assert text[n..n + |part|] == rest[start..start + |part|];
  }

  // ----- splitting

  lemma {:induction false} SplitIsJoined(s: string, sep: char)
    ensures Join(Split(s, sep), sep) == s
    ensures forall p | p in Split(s, sep) :: sep !in p
  {
    match IndexOf(s, sep)
    case None =>
    case Some(i) =>
      SplitIsJoined(s[i + 1..], sep);
      var rest := Split(s[i + 1..], sep);
      assert Split(s, sep)[1..] == rest;
      assert s == s[..i] + [sep] + s[i + 1..];
  }

  /** Splitting gives the one list of parts without separators whose joined text it is. */
  lemma SplitIff(s: string, sep: char, parts: seq<string>)
    ensures Split(s, sep) == parts <==> parts != [] && (forall p | p in parts :: sep !in p) && Join(parts, sep) == s
  {
    SplitIsJoined(s, sep);
    if parts != [] && (forall p | p in parts :: sep !in p) && Join(parts, sep) == s {
      SplitJoin(parts, sep);
    }
  }

  /** A longest stretch of text without the separator. */
  ghost predicate Piece(s: string, sep: char, p: string) {
    exists a: string, b: string :: s == a + p + b && Around(a, p, b, sep)
  }

  predicate Around(a: string, p: string, b: string, sep: char) {
    sep !in p && (a == "" || a[|a| - 1] == sep) && (b == "" || b[0] == sep)
  }

  /** The parts are the pieces between separators and ends. */
  lemma {:induction false} SplitMember(s: string, sep: char, p: string)
    ensures p in Split(s, sep) <==> Piece(s, sep, p)
    decreases |s|
  {
    match IndexOf(s, sep)
    case None =>
      NoSeparator(s, sep, p);
    case Some(i) =>
      SplitMember(s[i + 1..], sep, p);
      PieceOrLater(s, sep, i, p);
  }

  lemma PieceOrLater(s: string, sep: char, i: nat, p: string)
    requires i < |s| && s[i] == sep && sep !in s[..i]
    ensures Piece(s, sep, p) <==> p == s[..i] || Piece(s[i + 1..], sep, p)
  {
    var first, rest := s[..i], s[i + 1..];
    assert s == first + [sep] + rest;
    if p == first {
      PieceAt(s, sep, "", p, [sep] + rest);
    } else if Piece(rest, sep, p) {
      var a: string, b: string :| rest == a + p + b && Around(a, p, b, sep);
      PieceAt(s, sep, first + [sep] + a, p, b);
    } else if Piece(s, sep, p) {
      var a: string, b: string :| s == a + p + b && Around(a, p, b, sep);
      LaterPiece(s, sep, i, a, p, b);
    }
  }

  lemma PieceAt(s: string, sep: char, a: string, p: string, b: string)
    requires s == a + p + b && Around(a, p, b, sep)
    ensures Piece(s, sep, p)
  {
  }

  lemma NoSeparator(s: string, sep: char, p: string)
    requires sep !in s
    ensures Piece(s, sep, p) <==> p == s
  {
    assert s == "" + s + "" && Around("", s, "", sep);
    if Piece(s, sep, p) {
      var a: string, b: string :| s == a + p + b && Around(a, p, b, sep);
      Ends(a);
      Ends(b);
      Inside(s, a, p, b);
    }
  }

  lemma Ends(a: string)
    ensures a != "" ==> a[0] in a && a[|a| - 1] in a
  {
  }

  lemma Inside(s: string, a: string, p: string, b: string)
    requires s == a + p + b
    ensures forall c | c in a || c in p || c in b :: c in s
  {
  }

  lemma LaterPiece(s: string, sep: char, i: nat, a: string, p: string, b: string)
    requires s == a + p + b && Around(a, p, b, sep)
    requires i < |s| && s[i] == sep && sep !in s[..i]
    ensures p == s[..i] || Piece(s[i + 1..], sep, p)
  {
    if a == "" {
      FirstPiece(s, sep, i, p, b);
    } else {
      assert s[|a| - 1] == a[|a| - 1];
      assert forall k | 0 <= k < i :: s[..i][k] == s[k];
      assert s[i + 1..] == a[i + 1..] + p + b;
      assert Around(a[i + 1..], p, b, sep);
    }
  }

  lemma FirstPiece(s: string, sep: char, i: nat, p: string, b: string)
    requires s == p + b && sep !in p && (b == "" || b[0] == sep)
    requires i < |s| && s[i] == sep && sep !in s[..i]
    ensures p == s[..i]
  {
    assert forall k | 0 <= k < |p| :: s[k] == p[k];
    assert forall k | 0 <= k < i :: s[..i][k] == s[k];
    assert |p| < |s| ==> s[|p|] == b[0];
    assert s[..|p|] == p;
  }

  /** The parts with one more character in front of the text. */
  function Before(c: char, parts: seq<string>, sep: char): seq<string>
    requires parts != []
  {
    if c == sep then [""] + parts else [[c] + parts[0]] + parts[1..]
  }

  function Front(parts: seq<string>): seq<string>
    requires parts != []
  {
    parts[..|parts| - 1]
  }

  function Last(parts: seq<string>): string
    requires parts != []
  {
    parts[|parts| - 1]
  }

  /** The parts with one more character behind the text. */
  function Behind(parts: seq<string>, c: char, sep: char): seq<string>
    requires parts != []
  {
    if c == sep then parts + [""] else Front(parts) + [Last(parts) + [c]]
  }

  lemma SplitBefore(c: char, s: string, sep: char)
    ensures Split([c] + s, sep) == Before(c, Split(s, sep), sep)
  {
    var t := [c] + s;
    assert t[1..] == s;
    if c == sep {
      assert t[..0] == "";
    } else if IndexOf(s, sep).Some? {
      var i := IndexOf(s, sep).value;
      assert t[..i + 1] == [c] + s[..i];
      assert t[i + 2..] == s[i + 1..];
    }
  }

  lemma BothEnds(d: char, parts: seq<string>, c: char, sep: char)
    requires parts != []
    ensures Before(d, Behind(parts, c, sep), sep) == Behind(Before(d, parts, sep), c, sep)
  {
    if d != sep && c != sep && |parts| == 1 {
      assert [d] + (parts[0] + [c]) == [d] + parts[0] + [c];
    }
  }

  lemma {:induction false} SplitAfter(s: string, c: char, sep: char)
    ensures Split(s + [c], sep) == Behind(Split(s, sep), c, sep)
  {
    if s == "" {
      SplitBefore(c, "", sep);
      assert s + [c] == [c] + "";
    } else {
      var rest := s[1..];
      SplitAfter(rest, c, sep);
      SplitBefore(s[0], rest, sep);
      SplitBefore(s[0], rest + [c], sep);
      BothEnds(s[0], Split(rest, sep), c, sep);
      assert [s[0]] + rest == s;
      assert [s[0]] + (rest + [c]) == s + [c];
    }
  }

  // ----- trimming

  lemma TrimSpaceBefore(c: char, x: string)
    requires IsSpace(c)
    ensures TrimSpace([c] + x) == TrimSpace(x)
  {
    assert ([c] + x)[1..] == x;
  }

  lemma {:induction false} TrimLeftAfter(x: string, c: char)
    requires IsSpace(c)
    ensures TrimLeft(x + [c]) == if TrimLeft(x) == "" then "" else TrimLeft(x) + [c]
  {
    if x == "" {
      assert x + [c] == [c];
    } else if IsSpace(x[0]) {
      TrimLeftAfter(x[1..], c);
      assert (x + [c])[1..] == x[1..] + [c];
    }
  }

  lemma TrimSpaceAfter(x: string, c: char)
    requires IsSpace(c)
    ensures TrimSpace(x + [c]) == TrimSpace(x)
  {
    TrimLeftAfter(x, c);
    var t := TrimLeft(x);
    assert t != "" ==> (t + [c])[..|t|] == t;
  }

  predicate Blank(s: string) {
    forall c | c in s :: IsSpace(c)
  }

  /** White space, by code point. */
  lemma SpaceCodes(c: char)
    ensures var k := c as int;
      IsSpace(c) <==> || 9 <= k <= 13 || k == 32 || k == 0x85 || k == 0xA0 || k == 0x1680
                      || 0x2000 <= k <= 0x200A || k == 0x2028 || k == 0x2029
                      || k == 0x202F || k == 0x205F || k == 0x3000
  {
  }

  /** `t` is `s` without the white space at its ends. */
  ghost predicate Trimmed(s: string, t: string) {
    exists a: string, b: string :: TrimmedBy(s, a, t, b)
  }

  predicate TrimmedBy(s: string, a: string, t: string, b: string) {
    s == a + t + b && Blank(a) && Blank(b) && (t == "" || Solid(t))
  }

  lemma {:induction false} TrimmedBefore(a: string, x: string)
    requires Blank(a)
    ensures TrimSpace(a + x) == TrimSpace(x)
  {
    if a == "" {
      assert a + x == x;
    } else {
      assert a[0] in a;
      TrimmedBefore(a[1..], x);
      TrimSpaceBefore(a[0], a[1..] + x);
      assert a + x == [a[0]] + (a[1..] + x);
    }
  }

  lemma {:induction false} TrimmedAfter(x: string, b: string)
    requires Blank(b)
    ensures TrimSpace(x + b) == TrimSpace(x)
    decreases |b|
  {
    if b == "" {
      assert x + b == x;
    } else {
      var front, c := b[..|b| - 1], b[|b| - 1];
      assert c in b;
      TrimmedAfter(x, front);
      TrimSpaceAfter(x + front, c);
      assert x + b == x + front + [c];
    }
  }

  lemma {:induction false} LeftPart(s: string) returns (a: string)
    ensures s == a + TrimLeft(s) && Blank(a)
    ensures TrimLeft(s) == "" || !IsSpace(TrimLeft(s)[0])
  {
    a := "";
    if s != "" && IsSpace(s[0]) {
      var more := LeftPart(s[1..]);
      a := [s[0]] + more;
      assert s == [s[0]] + s[1..];
    }
  }

  lemma {:induction false} RightPart(s: string) returns (b: string)
    ensures s == TrimRight(s) + b && Blank(b)
    ensures TrimRight(s) == "" || (!IsSpace(TrimRight(s)[|TrimRight(s)| - 1]) && TrimRight(s)[0] == s[0])
  {
    b := "";
    if s != "" && IsSpace(s[|s| - 1]) {
      var more := RightPart(s[..|s| - 1]);
      b := more + [s[|s| - 1]];
      assert s == s[..|s| - 1] + [s[|s| - 1]];
    }
  }

  lemma TrimSpaceTrims(s: string)
    ensures Trimmed(s, TrimSpace(s))
  {
    var a := LeftPart(s);
    var b := RightPart(TrimLeft(s));
    assert TrimmedBy(s, a, TrimSpace(s), b);
  }

  lemma TrimmedAt(s: string, a: string, t: string, b: string)
    requires TrimmedBy(s, a, t, b)
    ensures TrimSpace(s) == t
  {
    assert s == a + (t + b);
    TrimmedBefore(a, t + b);
    TrimmedAfter(t, b);
    if t != "" { TrimSolid(t); }
  }

  /** Trimming takes exactly the white space off both ends. */
  lemma TrimIff(s: string, t: string)
    ensures TrimSpace(s) == t <==> Trimmed(s, t)
  {
    TrimSpaceTrims(s);
    if Trimmed(s, t) {
      var a: string, b: string :| TrimmedBy(s, a, t, b);
      TrimmedAt(s, a, t, b);
    }
  }

  lemma BlankIff(s: string)
    ensures TrimSpace(s) == "" <==> Blank(s)
  {
    TrimIff(s, "");
    if Blank(s) {
      assert TrimmedBy(s, s, "", "");
    }
    if TrimSpace(s) == "" {
      var a: string, b: string :| TrimmedBy(s, a, "", b);
      assert s == a + b;
    }
  }

  lemma TrimTwice(s: string)
    ensures TrimSpace(TrimSpace(s)) == TrimSpace(s)
  {
    TrimSpaceTrims(s);
    if TrimSpace(s) != "" { TrimSolid(TrimSpace(s)); }
  }

  // ----- the lines of a file, without blanks

  function Body(line: string): seq<string> {
    if TrimSpace(line) == "" then [] else [TrimSpace(line)]
  }

  /** The trimmed lines that are not blank. */
  function Bodies(lines: seq<string>): seq<string> {
    Collect(Body, lines)
  }

  lemma BlankBody()
    ensures Body("") == []
  {
  }

  lemma BodiesFrom(line: string, rest: seq<string>)
    ensures Bodies([line] + rest) == Body(line) + Bodies(rest)
  {
    CollectFrom(Body, [line] + rest, 0);
    assert ([line] + rest)[0..] == [line] + rest;
  }

  lemma BlankBefore(c: char, s: string)
    requires IsSpace(c)
    ensures Bodies(Split([c] + s, '\n')) == Bodies(Split(s, '\n'))
  {
    var parts := Split(s, '\n');
    SplitBefore(c, s, '\n');
    if c == '\n' {
      BlankBody();
      BodiesFrom("", parts);
    } else {
      TrimSpaceBefore(c, parts[0]);
      BodiesFrom([c] + parts[0], parts[1..]);
      BodiesFrom(parts[0], parts[1..]);
      assert [parts[0]] + parts[1..] == parts;
    }
  }

  lemma BehindIsBlank(parts: seq<string>, c: char)
    requires IsSpace(c) && parts != []
    ensures Bodies(Behind(parts, c, '\n')) == Bodies(parts)
  {
    if c == '\n' {
      BlankBody();
      CollectNext(Body, parts, "");
    } else {
      TrimSpaceAfter(Last(parts), c);
      CollectNext(Body, Front(parts), Last(parts) + [c]);
      CollectNext(Body, Front(parts), Last(parts));
      assert Front(parts) + [Last(parts)] == parts;
    }
  }

  lemma BlankAfter(s: string, c: char)
    requires IsSpace(c)
    ensures Bodies(Split(s + [c], '\n')) == Bodies(Split(s, '\n'))
  {
    SplitAfter(s, c, '\n');
    BehindIsBlank(Split(s, '\n'), c);
  }

  lemma {:induction false} TrimmedLeft(s: string)
    ensures Bodies(Split(TrimLeft(s), '\n')) == Bodies(Split(s, '\n'))
  {
    if s != "" && IsSpace(s[0]) {
      TrimmedLeft(s[1..]);
      BlankBefore(s[0], s[1..]);
      assert [s[0]] + s[1..] == s;
    }
  }

  lemma {:induction false} TrimmedRight(s: string)
    ensures Bodies(Split(TrimRight(s), '\n')) == Bodies(Split(s, '\n'))
    decreases |s|
  {
    if s != "" && IsSpace(s[|s| - 1]) {
      var front, c := s[..|s| - 1], s[|s| - 1];
      TrimmedRight(front);
      assert TrimRight(s) == TrimRight(front);
      assert front + [c] == s;
      BlankAfter(front, c);
    }
  }

  /** A trimmed and split file has the bodies of its lines. */
  lemma FileBodies(lines: seq<string>)
    requires |lines| >= 1 && forall l | l in lines :: '\n' !in l
    ensures Bodies(Split(TrimSpace(Join(lines, '\n') + "\n"), '\n')) == Bodies(lines)
  {
    var text := Join(lines, '\n');
    TrimmedRight(TrimLeft(text + "\n"));
    TrimmedLeft(text + "\n");
    BlankAfter(text, '\n');
    SplitJoin(lines, '\n');
  }
}
