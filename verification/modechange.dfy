/** Groups that inventory mode left behind, seen by a driver in structured mode. */
module ModeChange {
  import opened Results
  import opened Words
  import opened Windows
  import opened Slots
  import opened Schemata
  import opened Names
  import opened Protocol
  import opened Conservation
  import opened Partitioning
  import opened Tiling

  /** A domain of which a restart found every way refuses every request until the next
      restart, whatever the calls do. */
  lemma FullDomainRefuses(cfg: Config, fs: map<string, seq<Entry>>, unreadable: set<string>, run: seq<Action>,
                          dom: int, ways: int)
    requires Possible(cfg, Boot(fs, unreadable), run) && CrashFree(run)
    requires dom in cfg.totals && 0 <= cfg.totals[dom] <= WORD
    requires forall way: nat | way < cfg.totals[dom] :: Slot(dom, way) in Rebuilt(fs, unreadable)
    ensures AllocateResult(cfg.totals, After(cfg, Boot(fs, unreadable), run).used, dom, ways).Err?
  {
    var s := After(cfg, Boot(fs, unreadable), run);
    var used := UsedIn(s.used, dom);
    RecoveredStaysUsed(cfg, fs, unreadable, run);
    if 1 <= ways <= cfg.totals[dom] {
      forall start: nat | start + ways <= cfg.totals[dom] ensures !Free(used, start, ways) {
        UsedInMember(s.used, dom, start);
        assert Within(start, ways, start) && start in Span(start, ways);
      }
      FirstFitExact(cfg.totals[dom], used, ways);
    }
  }

  /** The groups of the partitions of a domain, as pre-created with the partitions' masks
      (`Schemata.CombinedRoundTrip` is the step from their text). */
  ghost predicate PartitionGroups(fs: map<string, seq<Entry>>, dom: int, ws: seq<int>) {
    forall j: nat | j < |ws| ::
      PartitionGroup(dom, j) in fs && fs[PartitionGroup(dom, j)] == [Entry(dom, Mask(StartWay(ws, j), ws[j]))]
  }

  lemma CellIsRebuilt(fs: map<string, seq<Entry>>, dom: int, ws: seq<int>, j: nat, way: nat)
    requires PartitionGroups(fs, dom, ws) && j < |ws| && way in Cell(ws, j)
    ensures Slot(dom, way) in Rebuilt(fs, {})
  {
    var n, e := PartitionGroup(dom, j), Entry(dom, Mask(StartWay(ws, j), ws[j]));
    PartitionGroupHasPrefix(dom, j);
    OneEntry(e);
    MaskSlotsMember(dom, e.mask, Slot(dom, way));
    assert LiveSlots(fs, n) == EntrySlots(fs[n]);
  }

  /** A node whose domain was partitioned by count: as long as those groups are there, a
      driver in structured mode counts all its ways as used and grants nothing. */
  lemma PartitionGroupsStarve(cfg: Config, info: CATInfo, count: int, fs: map<string, seq<Entry>>, run: seq<Action>,
                              dom: int, ways: int)
    requires Accepted(info, Popcount(info.cbmMask), SpecsFromCount(count, Popcount(info.cbmMask)))
    requires dom in cfg.totals && cfg.totals[dom] == Popcount(info.cbmMask)
    requires PartitionGroups(fs, dom, Widths(SpecsFromCount(count, Popcount(info.cbmMask))))
    requires Possible(cfg, Boot(fs, {}), run) && CrashFree(run)
    ensures AllocateResult(cfg.totals, After(cfg, Boot(fs, {}), run).used, dom, ways).Err?
  {
    var n := Popcount(info.cbmMask);
    var ws := Widths(SpecsFromCount(count, n));
    PopcountBound(info.cbmMask);
    CountTilesEverything(info, count);
    forall way: nat | way < n ensures Slot(dom, way) in Rebuilt(fs, {}) {
      assert InSomeCell(ws, way);
      var j: nat :| j < |ws| && way in Cell(ws, j);
      CellIsRebuilt(fs, dom, ws, j, way);
    }
    FullDomainRefuses(cfg, fs, {}, run, dom, ways);
  }
}
