/** The resctrl schemata text: how the driver writes it and how a rebuild reads it.

  A group is known to a restarted driver only through this text, so crash
  recovery is as good as the round trip proved here.
 */
module Schemata {
  import opened Results
  import opened GoText
  import opened Texts
  import opened Slots

  /** One `domain=mask` segment of an L3 line. */
  datatype Entry = Entry(dom: int, mask: bv64)

  // ----- reading

  function ParseSegment(seg: string): seq<Entry> {
    match IndexOf(seg, '=')
    case None => []
    case Some(eq) =>
      match Atoi(seg[..eq])
      case None => []
      case Some(dom) =>
        match ParseHex64(seg[eq + 1..])
        case None => []
        case Some(mask) => [Entry(dom, mask)]
  }

  function ParseSegments(segs: seq<string>): seq<Entry> {
    Collect(ParseSegment, segs)
  }

  /** The segments of an L3 line; other lines say nothing about cache ways. */
  function ParseLine(raw: string): seq<Entry> {
    var line := TrimSpace(raw);
    if "L3:" <= line then ParseSegments(Split(line[3..], ';')) else []
  }

  function ParseLines(lines: seq<string>): seq<Entry> {
    Collect(ParseLine, lines)
  }

  function ParseSchemata(text: string): seq<Entry> {
    ParseLines(Split(TrimSpace(text), '\n'))
  }

  /** The slots a list of entries claims. */
  ghost function EntrySlots(es: seq<Entry>): set<Slot> {
    if |es| == 0 then {} else EntrySlots(es[..|es| - 1]) + MaskSlots(es[|es| - 1].dom, es[|es| - 1].mask)
  }

  /** The slots a group with this schemata text holds. */
  ghost function GroupSlots(text: string): set<Slot> {
    EntrySlots(ParseSchemata(text))
  }

  // ----- writing

  function FormatSchemata(cacheID: int, cbm: string): string {
    "L3:" + Decimal(cacheID) + "=" + cbm
  }

  function FormatMBA(domainID: int, bandwidth: int): string {
    "MB:" + Decimal(domainID) + "=" + Decimal(bandwidth)
  }

  function FormatSMBA(domainID: int, bandwidth: int): string {
    "SMBA:" + Decimal(domainID) + "=" + Decimal(bandwidth)
  }

  function BuildStructuredSchemata(cacheID: int, cbmHex: string, mbaThrottle: int): string {
    Join([FormatSchemata(cacheID, cbmHex)]
         + (if mbaThrottle > 0 then [FormatMBA(cacheID, mbaThrottle)] else []), '\n')
  }

  /** The schemata of a pre-partitioned group: L3 first, the others when configured. */
  function FormatCombinedSchemata(cacheID: int, cbm: string, l2CBM: string, mbaThrottle: int,
                                  smbaThrottle: int): string {
    Join([FormatSchemata(cacheID, cbm)] + OtherLines(cacheID, l2CBM, mbaThrottle, smbaThrottle), '\n')
  }

  function OtherLines(cacheID: int, l2CBM: string, mbaThrottle: int, smbaThrottle: int): seq<string> {
    (if l2CBM != "" then ["L2:" + Decimal(cacheID) + "=" + l2CBM] else [])
    + (if mbaThrottle > 0 then [FormatMBA(cacheID, mbaThrottle)] else [])
    + (if smbaThrottle > 0 then [FormatSMBA(cacheID, smbaThrottle)] else [])
  }

  /** A full L3 line over several domains, as the kernel prints it. */
  function L3Line(es: seq<Entry>): string {
    "L3:" + Join(Segments(es), ';')
  }

  function Segment(e: Entry): string {
    Decimal(e.dom) + "=" + Hex(e.mask)
  }

  function Segments(es: seq<Entry>): (r: seq<string>)
    ensures |r| == |es| && forall i | 0 <= i < |es| :: r[i] == Segment(es[i])
  {
    seq(|es|, i requires 0 <= i < |es| => Segment(es[i]))
  }

  // ----- round trip of one line

  lemma SegmentRoundTrip(e: Entry)
    requires IsInt64(e.dom)
    ensures ParseSegment(Segment(e)) == [e]
  {
    var s := Segment(e);
    DecimalLacks(e.dom, '=');
    IndexOfFirst(Decimal(e.dom), '=', Hex(e.mask));
    assert s[..|Decimal(e.dom)|] == Decimal(e.dom);
    assert s[|Decimal(e.dom)| + 1..] == Hex(e.mask);
    DecimalRoundTrip(e.dom);
    HexRoundTrip(e.mask);
  }

  lemma SegmentsRoundTrip(es: seq<Entry>)
    requires forall e | e in es :: IsInt64(e.dom)
    ensures ParseSegments(Segments(es)) == es
  {
    forall i | 0 <= i < |es| ensures ParseSegment(Segments(es)[i]) == [es[i]] {
      SegmentRoundTrip(es[i]);
    }
    CollectSingles(ParseSegment, Segments(es), es);
  }

  predicate VisibleDigits(s: string) {
    s != "" && forall c | c in s :: IsDigit(c)
  }

  /** `prefix` + decimal + "=" + digits is one solid line. */
  lemma SettingIsSolid(prefix: string, dom: int, value: string)
    requires prefix != "" && !IsSpace(prefix[0]) && '\n' !in prefix
    requires VisibleDigits(value)
    ensures Solid(prefix + Decimal(dom) + "=" + value)
    ensures '\n' !in prefix + Decimal(dom) + "=" + value
  {
    var s := prefix + Decimal(dom) + "=" + value;
    assert s[0] == prefix[0];
    assert s[|s| - 1] == value[|value| - 1];
    assert IsDigit(value[|value| - 1]);
    DecimalLacks(dom, '\n');
  }

  lemma HexIsVisible(m: bv64)
    ensures VisibleDigits(Hex(m))
  {
    DigitsAreDigits(m as nat, 16);
  }

  lemma PositiveIsVisible(n: int)
    requires 0 <= n
    ensures VisibleDigits(Decimal(n))
  {
    DigitsAreDigits(n, 10);
  }

  /** Text that can end a line. */
  predicate Ending(s: string) {
    s != "" && !IsSpace(s[|s| - 1]) && '\n' !in s
  }

  lemma SegmentIsEnding(e: Entry)
    ensures Ending(Segment(e)) && ';' !in Segment(e)
  {
    var s := Segment(e);
    HexIsVisible(e.mask);
    assert s[|s| - 1] == Hex(e.mask)[|Hex(e.mask)| - 1];
    DecimalLacks(e.dom, '\n');
    DecimalLacks(e.dom, ';');
    HexLacks(e.mask, '\n');
    HexLacks(e.mask, ';');
  }

  lemma {:induction false} JoinedEndings(parts: seq<string>)
    requires |parts| >= 1 && forall p | p in parts :: Ending(p)
    ensures Ending(Join(parts, ';'))
    decreases |parts|
  {
    if |parts| == 1 {
      assert parts[0] in parts;
    } else {
      var rest := Join(parts[1..], ';');
      JoinedEndings(parts[1..]);
      assert parts[0] in parts;
      var t := parts[0] + [';'] + rest;
      assert t[|t| - 1] == rest[|rest| - 1];
    }
  }

  lemma SegmentsAreEndings(es: seq<Entry>)
    ensures forall s | s in Segments(es) :: Ending(s) && ';' !in s
  {
    forall s | s in Segments(es) ensures Ending(s) && ';' !in s {
      var i :| 0 <= i < |es| && s == Segment(es[i]);
      SegmentIsEnding(es[i]);
    }
  }

  lemma L3LineIsPlain(t: string)
    requires Ending(t)
    ensures PlainLine("L3:" + t)
  {
    var line := "L3:" + t;
    assert line[0] == 'L' && line[|line| - 1] == t[|t| - 1];
  }

  lemma ParseL3(t: string)
    requires Ending(t)
    ensures ParseLine("L3:" + t) == ParseSegments(Split(t, ';'))
  {
    L3LineIsPlain(t);
    TrimSolid("L3:" + t);
    assert ("L3:" + t)[3..] == t;
  }

  /** An L3 line over any number of domains is read back exactly. */
  lemma L3LineRoundTrip(es: seq<Entry>)
    requires |es| >= 1 && forall e | e in es :: IsInt64(e.dom)
    ensures PlainLine(L3Line(es))
    ensures ParseLine(L3Line(es)) == es
  {
    SegmentsAreEndings(es);
    JoinedEndings(Segments(es));
    L3LineIsPlain(Join(Segments(es), ';'));
    ParseL3(Join(Segments(es), ';'));
    SplitJoin(Segments(es), ';');
    SegmentsRoundTrip(es);
  }

  lemma SchemataLine(cacheID: int, mask: bv64)
    requires IsInt64(cacheID)
    ensures FormatSchemata(cacheID, Hex(mask)) == L3Line([Entry(cacheID, mask)])
    ensures ParseLine(FormatSchemata(cacheID, Hex(mask))) == [Entry(cacheID, mask)]
    ensures PlainLine(FormatSchemata(cacheID, Hex(mask)))
  {
    var es := [Entry(cacheID, mask)];
    assert Segments(es) == [Segment(es[0])];
    assert FormatSchemata(cacheID, Hex(mask)) == "L3:" + Segment(es[0]);
    L3LineRoundTrip(es);
  }

  // ----- whole files

  predicate PlainLine(line: string) {
    Solid(line) && '\n' !in line
  }

  /** Blank ends of a line do not matter to it, and blank lines say nothing. */
  lemma BodyParsed(raw: string)
    ensures ParseLine(raw) == ParseLines(Body(raw))
  {
    var line := TrimSpace(raw);
    TrimTwice(raw);
    if line != "" { CollectOne(ParseLine, line); }
  }

  lemma {:induction false} BodiesParsed(lines: seq<string>)
    ensures ParseLines(Bodies(lines)) == ParseLines(lines)
  {
    if |lines| != 0 {
      var front, last := lines[..|lines| - 1], lines[|lines| - 1];
      BodiesParsed(front);
      BodyParsed(last);
      CollectSplit(ParseLine, Bodies(front), Body(last));
    }
  }

  /** Any file of any lines is read line by line. */
  lemma FileIsItsLines(lines: seq<string>)
    requires |lines| >= 1 && forall l | l in lines :: '\n' !in l
    ensures ParseSchemata(Join(lines, '\n') + "\n") == ParseLines(lines)
  {
    FileBodies(lines);
    BodiesParsed(Split(TrimSpace(Join(lines, '\n') + "\n"), '\n'));
    BodiesParsed(lines);
  }

  lemma ParseAround(before: seq<string>, line: string, after: seq<string>)
    ensures ParseLines(before + [line] + after) == ParseLines(before) + ParseLine(line) + ParseLines(after)
  {
    CollectSplit(ParseLine, before + [line], after);
    CollectNext(ParseLine, before, line);
  }

  /** A line for another resource is plain and contributes nothing. */
  lemma OtherLine(prefix: string, dom: int, value: string)
    requires prefix == "L2:" || prefix == "MB:" || prefix == "SMBA:"
    requires VisibleDigits(value)
    ensures var line := prefix + Decimal(dom) + "=" + value;
      PlainLine(line) && ParseLine(line) == []
  {
    var line := prefix + Decimal(dom) + "=" + value;
    SettingIsSolid(prefix, dom, value);
    TrimSolid(line);
    assert line[0] == prefix[0] && line[1] == prefix[1];
  }

  lemma OtherLinesSayNothing(first: string, others: seq<string>)
    requires PlainLine(first)
    requires forall l | l in others :: PlainLine(l) && ParseLine(l) == []
    ensures ParseSchemata(Join([first] + others, '\n') + "\n") == ParseLine(first)
  {
    FileIsItsLines([first] + others);
    CollectSplit(ParseLine, [first], others);
    CollectNothing(ParseLine, others);
    CollectNext(ParseLine, [], first);
    assert [] + [first] == [first];
  }

  lemma OneEntry(e: Entry)
    ensures EntrySlots([e]) == MaskSlots(e.dom, e.mask)
  {
    assert [e][..0] == [];
  }

  /** What a prepare writes for a group is exactly what a rebuild reads. */
  lemma StructuredRoundTrip(cacheID: int, mask: bv64, mbaThrottle: int)
    requires IsInt64(cacheID)
    ensures ParseSchemata(BuildStructuredSchemata(cacheID, Hex(mask), mbaThrottle) + "\n") == [Entry(cacheID, mask)]
    ensures GroupSlots(BuildStructuredSchemata(cacheID, Hex(mask), mbaThrottle) + "\n") == MaskSlots(cacheID, mask)
  {
    var others := if mbaThrottle > 0 then [FormatMBA(cacheID, mbaThrottle)] else [];
    SchemataLine(cacheID, mask);
    if mbaThrottle > 0 {
      PositiveIsVisible(mbaThrottle);
      OtherLine("MB:", cacheID, Decimal(mbaThrottle));
    }
    OtherLinesSayNothing(FormatSchemata(cacheID, Hex(mask)), others);
    OneEntry(Entry(cacheID, mask));
  }

  lemma L2LineSaysNothing(cacheID: int, l2: bv64)
    ensures var line := "L2:" + Decimal(cacheID) + "=" + Hex(l2);
      PlainLine(line) && ParseLine(line) == []
  {
    HexIsVisible(l2);
    OtherLine("L2:", cacheID, Hex(l2));
  }

  lemma BandwidthLinesSayNothing(cacheID: int, throttle: nat)
    ensures PlainLine(FormatMBA(cacheID, throttle)) && ParseLine(FormatMBA(cacheID, throttle)) == []
    ensures PlainLine(FormatSMBA(cacheID, throttle)) && ParseLine(FormatSMBA(cacheID, throttle)) == []
  {
    PositiveIsVisible(throttle);
    OtherLine("MB:", cacheID, Decimal(throttle));
    OtherLine("SMBA:", cacheID, Decimal(throttle));
  }

  lemma OtherLinesArePlain(cacheID: int, l2CBM: string, l2: bv64, mbaThrottle: int, smbaThrottle: int)
    requires l2CBM == "" || l2CBM == Hex(l2)
    ensures forall l | l in OtherLines(cacheID, l2CBM, mbaThrottle, smbaThrottle) :: PlainLine(l) && ParseLine(l) == []
  {
    forall l | l in OtherLines(cacheID, l2CBM, mbaThrottle, smbaThrottle)
      ensures PlainLine(l) && ParseLine(l) == []
    {
      if l2CBM != "" && l == "L2:" + Decimal(cacheID) + "=" + l2CBM {
        L2LineSaysNothing(cacheID, l2);
      } else if mbaThrottle > 0 && l == FormatMBA(cacheID, mbaThrottle) {
        BandwidthLinesSayNothing(cacheID, mbaThrottle);
      } else {
        assert smbaThrottle > 0 && l == FormatSMBA(cacheID, smbaThrottle);
        BandwidthLinesSayNothing(cacheID, smbaThrottle);
      }
    }
  }

  /** L2, MB and SMBA lines of a combined schemata do not change what is read. */
  lemma CombinedRoundTrip(cacheID: int, mask: bv64, l2CBM: string, l2: bv64, mbaThrottle: int, smbaThrottle: int)
    requires IsInt64(cacheID) && (l2CBM == "" || l2CBM == Hex(l2))
    ensures ParseSchemata(FormatCombinedSchemata(cacheID, Hex(mask), l2CBM, mbaThrottle, smbaThrottle) + "\n")
      == [Entry(cacheID, mask)]
  {
    SchemataLine(cacheID, mask);
    OtherLinesArePlain(cacheID, l2CBM, l2, mbaThrottle, smbaThrottle);
    OtherLinesSayNothing(FormatSchemata(cacheID, Hex(mask)), OtherLines(cacheID, l2CBM, mbaThrottle, smbaThrottle));
  }

  // ----- entries and slots

  lemma {:induction false} EntrySlotsSplit(a: seq<Entry>, b: seq<Entry>)
    ensures EntrySlots(a + b) == EntrySlots(a) + EntrySlots(b)
    decreases |b|
  {
    if |b| == 0 {
      assert a + b == a;
    } else {
      EntrySlotsSplit(a, b[..|b| - 1]);
      assert (a + b)[..|a + b| - 1] == a + b[..|b| - 1];
    }
  }

  lemma {:induction false} EntrySlotsMember(es: seq<Entry>, s: Slot)
    ensures s in EntrySlots(es) <==> exists e | e in es :: s in MaskSlots(e.dom, e.mask)
  {
    if |es| != 0 {
      var before, last := es[..|es| - 1], es[|es| - 1];
      EntrySlotsMember(before, s);
      assert es == before + [last];
    }
  }

  lemma {:induction false} EveryEntryCounts(es: seq<Entry>, e: Entry)
    requires e in es
    ensures MaskSlots(e.dom, e.mask) <= EntrySlots(es)
  {
    if e != es[|es| - 1] { EveryEntryCounts(es[..|es| - 1], e); }
  }

  /** Spaces in front of a line. */
  predicate Indent(s: string) {
    forall c | c in s :: IsSpace(c) && c != '\n'
  }

  lemma IndentedLine(indent: string, line: string)
    requires Indent(indent)
    ensures ParseLine(indent + line) == ParseLine(line)
  {
    TrimmedBefore(indent, line);
  }

  lemma OtherResources(lines: seq<string>)
    requires forall l | l in lines :: !("L3:" <= TrimSpace(l))
    ensures ParseLines(lines) == []
  {
    CollectNothing(ParseLine, lines);
  }

  /** A file as the kernel may print it, with the L3 line indented anywhere among others
      and listing further domains, is never read as less than what was written; lines
      for other resources add nothing. */
  lemma ExtraDomainsOnlyAdd(others: seq<string>, indent: string, es: seq<Entry>, rest: seq<string>, e: Entry)
    requires e in es && (forall x | x in es :: IsInt64(x.dom)) && Indent(indent)
    requires forall l | l in others + rest :: '\n' !in l
    ensures var text := Join(others + [indent + L3Line(es)] + rest, '\n') + "\n";
      && MaskSlots(e.dom, e.mask) <= GroupSlots(text)
      && ((forall l | l in others + rest :: !("L3:" <= TrimSpace(l))) ==> GroupSlots(text) == EntrySlots(es))
  {
    var line := indent + L3Line(es);
    L3LineRoundTrip(es);
    IndentedLine(indent, L3Line(es));
    FileAround(others, line, rest);
    AtLeast(others, line, rest, es, e);
  }

  lemma AtLeast(others: seq<string>, line: string, rest: seq<string>, es: seq<Entry>, e: Entry)
    requires ParseLine(line) == es && e in es
    ensures var all := ParseLines(others) + es + ParseLines(rest);
      && MaskSlots(e.dom, e.mask) <= EntrySlots(all)
      && ((forall l | l in others + rest :: !("L3:" <= TrimSpace(l))) ==> EntrySlots(all) == EntrySlots(es))
  {
    SlotsAround(ParseLines(others), es, ParseLines(rest));
    EveryEntryCounts(es, e);
    if forall l | l in others + rest :: !("L3:" <= TrimSpace(l)) {
      OnlyLine(others, rest);
    }
  }

  lemma FileAround(others: seq<string>, line: string, rest: seq<string>)
    requires '\n' !in line && forall l | l in others + rest :: '\n' !in l
    ensures ParseSchemata(Join(others + [line] + rest, '\n') + "\n")
      == ParseLines(others) + ParseLine(line) + ParseLines(rest)
  {
    var lines := others + [line] + rest;
    forall l | l in lines ensures '\n' !in l {
      if l != line { assert l in others + rest; }
    }
    FileIsItsLines(lines);
    ParseAround(others, line, rest);
  }

  lemma SlotsAround(a: seq<Entry>, b: seq<Entry>, c: seq<Entry>)
    ensures EntrySlots(a + b + c) == EntrySlots(a) + EntrySlots(b) + EntrySlots(c)
  {
    EntrySlotsSplit(a + b, c);
    EntrySlotsSplit(a, b);
  }

  lemma OnlyLine(others: seq<string>, rest: seq<string>)
    requires forall l | l in others + rest :: !("L3:" <= TrimSpace(l))
    ensures ParseLines(others) == [] && ParseLines(rest) == []
  {
    forall l | l in others || l in rest ensures !("L3:" <= TrimSpace(l)) { assert l in others + rest; }
    OtherResources(others);
    OtherResources(rest);
  }
}
