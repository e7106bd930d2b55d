/** What the texts the driver reads and writes mean, stated on their characters. */
module Meaning {
  import opened Results
  import opened Words
  import opened WordValues
  import opened GoText
  import opened Numerals
  import opened Texts
  import opened Slots
  import opened Schemata
  import opened Names

  // ----- reading schemata

  /** The segment is an integer, `=`, and a hexadecimal word. */
  ghost predicate SegmentReads(seg: string, e: Entry) {
    exists a: string, b: string :: SettingReads(seg, a, b, e)
  }

  predicate SettingReads(seg: string, a: string, b: string, e: Entry) {
    seg == a + "=" + b && '=' !in a && ReadsAs(a, e.dom) && HexReadsAs(b, e.mask)
  }

  /** A segment contributes the entry that its characters spell, and at most one. */
  lemma SegmentIff(seg: string, e: Entry)
    ensures e in ParseSegment(seg) <==> SegmentReads(seg, e)
    ensures |ParseSegment(seg)| <= 1
  {
    if SegmentReads(seg, e) {
      var a: string, b: string :| SettingReads(seg, a, b, e);
      SettingParsed(seg, a, b, e);
    }
    if e in ParseSegment(seg) {
      var a, b := SettingOf(seg, e);
      assert SettingReads(seg, a, b, e);
    }
  }

  lemma SettingOf(seg: string, e: Entry) returns (a: string, b: string)
    requires e in ParseSegment(seg)
    ensures SettingReads(seg, a, b, e)
  {
    var i := IndexOf(seg, '=').value;
    a, b := seg[..i], seg[i + 1..];
    AtoiIff(a, e.dom);
    ParseHexIff(b, e.mask);
  }

  lemma SettingParsed(seg: string, a: string, b: string, e: Entry)
    requires SettingReads(seg, a, b, e)
    ensures ParseSegment(seg) == [e]
  {
    IndexOfFirst(a, '=', b);
    assert seg[..|a|] == a && seg[|a| + 1..] == b;
    AtoiIff(a, e.dom);
    ParseHexIff(b, e.mask);
  }

  /** The line without the white space around it begins with `L3:`, and one of the
      segments after that, between semicolons, reads as the entry. */
  ghost predicate LineReads(raw: string, e: Entry) {
    exists line: string, seg: string ::
      Trimmed(raw, line) && "L3:" <= line && Piece(line[3..], ';', seg) && SegmentReads(seg, e)
  }

  lemma LineIff(raw: string, e: Entry)
    ensures e in ParseLine(raw) <==> LineReads(raw, e)
  {
    var line := TrimSpace(raw);
    TrimIff(raw, line);
    if "L3:" <= line {
      CollectMember(ParseSegment, Split(line[3..], ';'), e);
    }
    if e in ParseLine(raw) {
      var seg :| seg in Split(line[3..], ';') && e in ParseSegment(seg);
      SplitMember(line[3..], ';', seg);
      SegmentIff(seg, e);
    }
    if LineReads(raw, e) {
      var l: string, seg: string :|
        Trimmed(raw, l) && "L3:" <= l && Piece(l[3..], ';', seg) && SegmentReads(seg, e);
      TrimIff(raw, l);
      SplitMember(line[3..], ';', seg);
      SegmentIff(seg, e);
    }
  }

  /** Some line of the file reads as the entry. */
  ghost predicate FileReads(text: string, e: Entry) {
    exists body: string, raw: string :: Trimmed(text, body) && Piece(body, '\n', raw) && LineReads(raw, e)
  }

  lemma FileIff(text: string, e: Entry)
    ensures e in ParseSchemata(text) <==> FileReads(text, e)
  {
    var body := TrimSpace(text);
    TrimIff(text, body);
    CollectMember(ParseLine, Split(body, '\n'), e);
    if e in ParseSchemata(text) {
      var raw :| raw in Split(body, '\n') && e in ParseLine(raw);
      SplitMember(body, '\n', raw);
      LineIff(raw, e);
    }
    if FileReads(text, e) {
      var b: string, raw: string :| Trimmed(text, b) && Piece(b, '\n', raw) && LineReads(raw, e);
      TrimIff(text, b);
      SplitMember(body, '\n', raw);
      LineIff(raw, e);
    }
  }

  /** The binary digit of the mask at the way is one. */
  ghost predicate HasWay(mask: bv64, way: nat) {
    way < WORD && mask as int / Power(2, way) % 2 == 1
  }

  ghost predicate EntryHas(e: Entry, s: Slot) {
    e.dom == s.dom && HasWay(e.mask, s.way)
  }

  lemma MaskHas(e: Entry, s: Slot)
    ensures s in MaskSlots(e.dom, e.mask) <==> EntryHas(e, s)
  {
    MaskSlotsMember(e.dom, e.mask, s);
    if s.way < WORD { WayIsBinaryDigit(e.mask, s.way); }
  }

  /** The line spells an entry with the way. */
  ghost predicate LineMarks(raw: string, s: Slot) {
    exists e :: LineReads(raw, e) && EntryHas(e, s)
  }

  lemma LineMarksIff(raw: string, s: Slot)
    ensures s in EntrySlots(ParseLine(raw)) <==> LineMarks(raw, s)
  {
    EntrySlotsMember(ParseLine(raw), s);
    if s in EntrySlots(ParseLine(raw)) {
      var e :| e in ParseLine(raw) && s in MaskSlots(e.dom, e.mask);
      LineIff(raw, e);
      MaskHas(e, s);
    }
    forall e | LineReads(raw, e) && EntryHas(e, s) ensures s in EntrySlots(ParseLine(raw)) {
      LineIff(raw, e);
      MaskHas(e, s);
    }
  }

  /** Some line of the file spells an entry with the way. */
  ghost predicate FileMarks(text: string, s: Slot) {
    exists e :: FileReads(text, e) && EntryHas(e, s)
  }

  /** A rebuild reads a way from a file exactly when a segment of an L3 line of the file
      spells its domain and a mask with that binary digit. */
  lemma FileMarksIff(text: string, s: Slot)
    ensures s in GroupSlots(text) <==> FileMarks(text, s)
  {
    EntrySlotsMember(ParseSchemata(text), s);
    if s in GroupSlots(text) {
      var e :| e in ParseSchemata(text) && s in MaskSlots(e.dom, e.mask);
      FileIff(text, e);
      MaskHas(e, s);
    }
    forall e | FileReads(text, e) && EntryHas(e, s) ensures s in GroupSlots(text) {
      FileIff(text, e);
      MaskHas(e, s);
    }
  }

  // ----- reading device names

  /** `cache`, the domain, a hyphen, the number of ways, `way`. */
  ghost predicate NamesDevice(name: string, cacheID: int, ways: int) {
    exists a: string, b: string :: NameParts(name, a, b, cacheID, ways)
  }

  predicate NameParts(name: string, a: string, b: string, cacheID: int, ways: int) {
    name == "cache" + a + "-" + b + "way" && '-' !in a && ReadsAs(a, cacheID) && ReadsAs(b, ways)
  }

  lemma DeviceNameIff(name: string, cacheID: int, ways: int)
    ensures ParseDeviceName(name) == Some((cacheID, ways)) <==> NamesDevice(name, cacheID, ways)
  {
    if NamesDevice(name, cacheID, ways) {
      var a: string, b: string :| NameParts(name, a, b, cacheID, ways);
      NameParsed(name, a, b, cacheID, ways);
    }
    if ParseDeviceName(name) == Some((cacheID, ways)) {
      var a, b := PartsOf(name, cacheID, ways);
      assert NameParts(name, a, b, cacheID, ways);
    }
  }

  lemma PartsOf(name: string, cacheID: int, ways: int) returns (a: string, b: string)
    requires ParseDeviceName(name) == Some((cacheID, ways))
    ensures NameParts(name, a, b, cacheID, ways)
  {
    var inner := NameInner(name);
    a, b := NumbersOf(inner, cacheID, ways);
    JoinName(a, b, inner);
  }

  lemma NumbersOf(inner: string, cacheID: int, ways: int) returns (a: string, b: string)
    requires ParseDeviceNumbers(inner) == Some((cacheID, ways))
    ensures inner == a + "-" + b && '-' !in a && ReadsAs(a, cacheID) && ReadsAs(b, ways)
  {
    var i := IndexOf(inner, '-').value;
    a, b := inner[..i], inner[i + 1..];
    AtoiIff(a, cacheID);
    AtoiIff(b, ways);
  }

  lemma NameParsed(name: string, a: string, b: string, cacheID: int, ways: int)
    requires NameParts(name, a, b, cacheID, ways)
    ensures ParseDeviceName(name) == Some((cacheID, ways))
  {
    DeviceNameInner(a, b);
    AtoiIff(a, cacheID);
    AtoiIff(b, ways);
    NumbersRoundTrip(a, b, cacheID, ways);
  }

  lemma NameInner(name: string) returns (inner: string)
    requires ParseDeviceName(name).Some?
    ensures name == "cache" + inner + "way" && ParseDeviceName(name) == ParseDeviceNumbers(inner)
  {
    var rest := name[5..];
    inner := TrimSuffix(rest, "way");
    NoOverlap(name);
    SuffixTrimmed(rest, "way");
    PrefixCut(name, "cache");
  }

  lemma SuffixTrimmed(s: string, suffix: string)
    requires EndsWith(s, suffix)
    ensures s == TrimSuffix(s, suffix) + suffix
  {
  }

  lemma PrefixCut(s: string, prefix: string)
    requires prefix <= s
    ensures s == prefix + s[|prefix|..]
  {
  }

  lemma NoOverlap(name: string)
    requires "cache" <= name && EndsWith(name, "way")
    ensures EndsWith(name[5..], "way")
  {
    var n := |name|;
    assert name[n - 3..][0] == name[n - 3] && name[n - 3..][1] == name[n - 2];
    assert "cache"[4] == 'e' && "cache"[3] == 'h' && "way"[0] == 'w' && "way"[1] == 'a';
    assert name[4] == 'e' && name[3] == 'h';
    assert 8 <= n;
    assert name[5..][n - 8..] == name[n - 3..];
  }

  lemma JoinName(a: string, b: string, inner: string)
    requires inner == a + "-" + b
    ensures "cache" + inner + "way" == "cache" + a + "-" + b + "way"
  {
  }
}
