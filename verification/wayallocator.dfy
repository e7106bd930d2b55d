/** The way allocator of structured mode: one mask of used ways per cache domain. */
module WayAllocation {
  import opened Results
  import opened Words
  import opened Windows
  import opened Slots
  import opened GoText
  import opened Schemata
  import opened Meaning

  /** Reading a Go map at a key it may lack. */
  function MaskAt(m: map<int, bv64>, dom: int): bv64 {
    if dom in m then m[dom] else 0
  }

  /** The slots a mask map stands for. */
  ghost function AllSlots(m: map<int, bv64>): set<Slot> {
    set d, i | d in m && i in Ways(m[d]) :: Slot(d, i)
  }

  lemma AllSlotsMember(m: map<int, bv64>, s: Slot)
    ensures s in AllSlots(m) <==> s.way in Ways(MaskAt(m, s.dom))
  {
    WaysZero();
    assert s == Slot(s.dom, s.way);
  }

  lemma UsedInAllSlots(m: map<int, bv64>, dom: int)
    ensures UsedIn(AllSlots(m), dom) == Ways(MaskAt(m, dom))
  {
    forall i: nat ensures i in UsedIn(AllSlots(m), dom) <==> i in Ways(MaskAt(m, dom)) {
      UsedInMember(AllSlots(m), dom, i);
      AllSlotsMember(m, Slot(dom, i));
    }
  }

  lemma AllSlotsUpdate(m: map<int, bv64>, dom: int, mask: bv64, s: Slot)
    ensures s in AllSlots(m[dom := mask]) <==> if s.dom == dom then s.way in Ways(mask) else s in AllSlots(m)
  {
    AllSlotsMember(m, s);
    AllSlotsMember(m[dom := mask], s);
  }

  lemma AllSlotsOr(m: map<int, bv64>, dom: int, mask: bv64, after: bv64)
    requires after == MaskAt(m, dom) | mask
    ensures AllSlots(m[dom := after]) == AllSlots(m) + MaskSlots(dom, mask)
  {
    WaysOr(MaskAt(m, dom), mask);
    forall s ensures s in AllSlots(m[dom := after]) <==> s in AllSlots(m) + MaskSlots(dom, mask) {
      AllSlotsMember(m, s);
      AllSlotsUpdate(m, dom, after, s);
      MaskSlotsMember(dom, mask, s);
    }
  }

  lemma AllSlotsAndNot(m: map<int, bv64>, dom: int, mask: bv64, after: bv64)
    requires after == MaskAt(m, dom) & !mask
    ensures AllSlots(m[dom := after]) == AllSlots(m) - MaskSlots(dom, mask)
  {
    WaysAndNot(MaskAt(m, dom), mask);
    forall s ensures s in AllSlots(m[dom := after]) <==> s in AllSlots(m) - MaskSlots(dom, mask) {
      AllSlotsMember(m, s);
      AllSlotsUpdate(m, dom, after, s);
      MaskSlotsMember(dom, mask, s);
    }
  }

  // ----- the resctrl directory

  /** What a scan finds under one name of the resctrl root. */
  datatype DirEntry = DirEntry(name: string, isDir: bool, schemata: Option<string>)

  /** What one directory entry adds: nothing for files, foreign groups and groups
      whose schemata cannot be read. */
  ghost function Contribution(e: DirEntry, groupPrefix: string): set<Slot> {
    if e.isDir && groupPrefix <= e.name && e.schemata.Some? then GroupSlots(e.schemata.value) else {}
  }

  ghost function ScanSlots(entries: seq<DirEntry>, groupPrefix: string): set<Slot> {
    if |entries| == 0 then {}
    else ScanSlots(entries[..|entries| - 1], groupPrefix) + Contribution(entries[|entries| - 1], groupPrefix)
  }

  lemma {:induction false} ScanSlotsMember(entries: seq<DirEntry>, groupPrefix: string, s: Slot)
    ensures s in ScanSlots(entries, groupPrefix) <==> exists e | e in entries :: s in Contribution(e, groupPrefix)
  {
    if |entries| != 0 {
      var before, last := entries[..|entries| - 1], entries[|entries| - 1];
      ScanSlotsMember(before, groupPrefix, s);
      assert entries == before + [last];
    }
  }

  /** The directory order is irrelevant, and so are repeated scans of an entry. */
  lemma ScanOrderIrrelevant(a: seq<DirEntry>, b: seq<DirEntry>, groupPrefix: string)
    requires forall e :: e in a <==> e in b
    ensures ScanSlots(a, groupPrefix) == ScanSlots(b, groupPrefix)
  {
    forall s ensures s in ScanSlots(a, groupPrefix) <==> s in ScanSlots(b, groupPrefix) {
      ScanSlotsMember(a, groupPrefix, s);
      ScanSlotsMember(b, groupPrefix, s);
    }
  }

  /** A directory of the listing whose name has the prefix, with a readable file that
      reads as an entry with the way. */
  ghost predicate Marks(d: DirEntry, groupPrefix: string, s: Slot) {
    d.isDir && groupPrefix <= d.name && d.schemata.Some? && FileMarks(d.schemata.value, s)
  }

  /** So a rebuild marks exactly the ways that are spelled out in the groups' files. */
  lemma ScanMarksIff(entries: seq<DirEntry>, groupPrefix: string, s: Slot)
    ensures s in ScanSlots(entries, groupPrefix) <==> exists d | d in entries :: Marks(d, groupPrefix, s)
  {
    ScanSlotsMember(entries, groupPrefix, s);
    forall d | d in entries ensures s in Contribution(d, groupPrefix) <==> Marks(d, groupPrefix, s) {
      if d.schemata.Some? { FileMarksIff(d.schemata.value, s); }
    }
  }

  lemma LineAdds(lines: seq<string>, k: nat)
    requires k < |lines|
    ensures EntrySlots(ParseLines(lines[..k + 1]))
      == EntrySlots(ParseLines(lines[..k])) + EntrySlots(ParseLine(lines[k]))
  {
    assert lines[..k + 1] == lines[..k] + [lines[k]];
    CollectNext(ParseLine, lines[..k], lines[k]);
    EntrySlotsSplit(ParseLines(lines[..k]), ParseLine(lines[k]));
  }

  lemma SegmentAdds(segs: seq<string>, k: nat)
    requires k < |segs|
    ensures EntrySlots(ParseSegments(segs[..k + 1]))
      == EntrySlots(ParseSegments(segs[..k])) + EntrySlots(ParseSegment(segs[k]))
  {
    assert segs[..k + 1] == segs[..k] + [segs[k]];
    CollectNext(ParseSegment, segs[..k], segs[k]);
    EntrySlotsSplit(ParseSegments(segs[..k]), ParseSegment(segs[k]));
  }

  /** `buildWayMask`. */
  method BuildWayMask(start: int, count: int) returns (mask: bv64)
    ensures mask == Mask(start, count)
    ensures Ways(mask) == Span(start, count)
  {
    mask := 0;
    var i := start;
    while i < start + count
      invariant start <= i
      invariant if count < 0 then i == start else i <= start + count
      invariant mask == Mask(start, i - start)
    {
      mask := mask | OneHot(i);
      i := i + 1;
    }
    WaysMask(start, count);
  }

  /** The test of the search loop, `used & candidate == 0`: the window is free. */
  method TryWindow(used: bv64, start: int, ways: int) returns (candidate: bv64, free: bool)
    ensures candidate == Mask(start, ways)
    ensures free <==> Free(Ways(used), start, ways)
  {
    candidate := BuildWayMask(start, ways);
    MeetIsDisjoint(used, candidate);
    free := used & candidate == 0;
  }

  class WayAllocator {
    var totalWays: map<int, int>
    var usedMask: map<int, bv64>

    /** The ways currently reserved, over all domains. */
    ghost function Used(): set<Slot>
      reads this`usedMask
    {
      AllSlots(usedMask)
    }

    /** `NewWayAllocator`: a copy of the totals, and nothing in use. */
    constructor (totals: map<int, int>)
      ensures totalWays == totals
      ensures Used() == {}
    {
      totalWays := totals;
      usedMask := map id | id in totals :: 0;
      new;
      WaysZero();
    }

    /** `Allocate`: first fit, exactly as the specification on sets places it. */
    method Allocate(cacheID: int, ways: int) returns (r: Result<bv64, AllocError>)
      modifies this`usedMask
      ensures r == AllocateResult(totalWays, old(Used()), cacheID, ways)
      ensures Used() == old(Used()) + if r.Ok? then MaskSlots(cacheID, r.value) else {}
    {
      if cacheID !in totalWays {
        return Err(UnknownDomain);
      }
      var total := totalWays[cacheID];
      if ways <= 0 || ways > total {
        return Err(BadRequest);
      }
      var used := MaskAt(usedMask, cacheID);
      UsedInAllSlots(usedMask, cacheID);
      var start: nat := 0;
      while start + ways <= total
        invariant FirstFit(total, Ways(used), ways) == FirstFitFrom(total, Ways(used), ways, start)
        invariant usedMask == old(usedMask)
      {
        var candidate, free := TryWindow(used, start, ways);
        if free {
          Reserve(cacheID, candidate);
          return Ok(candidate);
        }
        start := start + 1;
      }
      return Err(NoRoom);
    }

    /** `Release`. */
    method Release(cacheID: int, cbm: bv64)
      modifies this`usedMask
      ensures Used() == old(Used()) - MaskSlots(cacheID, cbm)
    {
      var after := MaskAt(usedMask, cacheID) & !cbm;
      AllSlotsAndNot(usedMask, cacheID, cbm, after);
      usedMask := usedMask[cacheID := after];
    }

    /** The update `allocated[cacheID] |= cbm` of an allocation and of a rebuild. */
    method Reserve(cacheID: int, cbm: bv64)
      modifies this`usedMask
      ensures Used() == old(Used()) + MaskSlots(cacheID, cbm)
    {
      var after := MaskAt(usedMask, cacheID) | cbm;
      AllSlotsOr(usedMask, cacheID, cbm, after);
      usedMask := usedMask[cacheID := after];
    }

    /** `FreeWays`: an unknown domain has none. */
    method FreeWays(cacheID: int) returns (free: nat)
      ensures cacheID in totalWays && 0 <= totalWays[cacheID] ==>
        free == FreeBelow(UsedIn(Used(), cacheID), totalWays[cacheID])
        && free + |UsedIn(Used(), cacheID) * Prefix(totalWays[cacheID])| == totalWays[cacheID]
      ensures cacheID !in totalWays || totalWays[cacheID] < 0 ==> free == 0
    {
      var used := MaskAt(usedMask, cacheID);
      UsedInAllSlots(usedMask, cacheID);
      free := 0;
      var total := if cacheID in totalWays then totalWays[cacheID] else 0;
      var i: nat := 0;
      while i < total
        invariant i <= total || total < 0
        invariant total < 0 ==> i == 0
        invariant free == FreeBelow(Ways(used), i)
      {
        if !Bit(used, i) {
          free := free + 1;
        }
        i := i + 1;
      }
      if 0 <= total { FreePlusUsed(Ways(used), total); }
    }

    /** `RebuildFromResctrl`: the surviving groups' ways are added to the used ways.
        `entries` is the directory listing, absent when it cannot be read. */
    method RebuildFromResctrl(entries: Option<seq<DirEntry>>, groupPrefix: string) returns (ok: bool)
      modifies this`usedMask
      ensures ok <==> entries.Some?
      ensures Used() == old(Used()) + if ok then ScanSlots(entries.value, groupPrefix) else {}
      ensures forall s :: s in Used() <==>
        s in old(Used()) || (ok && exists d | d in entries.value :: Marks(d, groupPrefix, s))
    {
      if entries.None? {
        return false;
      }
      var es := entries.value;
      var k := 0;
      while k < |es|
        invariant k <= |es|
        invariant Used() == old(Used()) + ScanSlots(es[..k], groupPrefix)
      {
        var entry := es[k];
        assert es[..k + 1][..k] == es[..k];
        if entry.isDir && groupPrefix <= entry.name && entry.schemata.Some? {
          RebuildGroup(entry.schemata.value);
        }
        k := k + 1;
      }
      assert es[..k] == es;
      forall s ensures s in ScanSlots(es, groupPrefix) <==> exists d | d in es :: Marks(d, groupPrefix, s) {
        ScanMarksIff(es, groupPrefix, s);
      }
      return true;
    }

    /** The lines of one group's schemata file. */
    method RebuildGroup(data: string)
      modifies this`usedMask
      ensures Used() == old(Used()) + GroupSlots(data)
    {
      var lines := Split(TrimSpace(data), '\n');
      var k := 0;
      while k < |lines|
        invariant k <= |lines|
        invariant Used() == old(Used()) + EntrySlots(ParseLines(lines[..k]))
      {
        LineAdds(lines, k);
        RebuildLine(lines[k]);
        k := k + 1;
      }
      assert lines[..k] == lines;
    }

    /** One line: only L3 lines count, segment by segment. */
    method RebuildLine(raw: string)
      modifies this`usedMask
      ensures Used() == old(Used()) + EntrySlots(ParseLine(raw))
      ensures forall s :: s in Used() <==> s in old(Used()) || LineMarks(raw, s)
    {
      forall s ensures s in EntrySlots(ParseLine(raw)) <==> LineMarks(raw, s) {
        LineMarksIff(raw, s);
      }
      var line := TrimSpace(raw);
      if !("L3:" <= line) {
        return;
      }
      var segs := Split(line[3..], ';');
      var k := 0;
      while k < |segs|
        invariant k <= |segs|
        invariant Used() == old(Used()) + EntrySlots(ParseSegments(segs[..k]))
      {
        SegmentAdds(segs, k);
        RebuildSegment(segs[k]);
        k := k + 1;
      }
      assert segs[..k] == segs;
    }

    /** One segment, skipped when malformed. */
    method RebuildSegment(seg: string)
      modifies this`usedMask
      ensures Used() == old(Used()) + EntrySlots(ParseSegment(seg))
    {
      var eqIdx := IndexOf(seg, '=');
      if eqIdx.None? {
        return;
      }
      var cacheID := Atoi(seg[..eqIdx.value]);
      if cacheID.None? {
        return;
      }
      var cbm := ParseHex64(seg[eqIdx.value + 1..]);
      if cbm.None? {
        return;
      }
      OneEntry(Entry(cacheID.value, cbm.value));
      Reserve(cacheID.value, cbm.value);
    }
  }
}
