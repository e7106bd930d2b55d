/** Fragmentation of the states a driver reaches, groups of earlier drivers included. */
module Fragmentation {
  import opened Words
  import opened Windows
  import opened Slots
  import opened Schemata
  import opened Protocol
  import opened Isolation
  import opened Conservation

  // ----- everything written is contiguous

  predicate IsRun(mask: bv64, w: Window) {
    mask == Mask(w.start, w.ways)
  }

  ghost predicate Contiguous(mask: bv64) {
    exists w :: IsRun(mask, w)
  }

  ghost predicate ContiguousGroups(fs: map<string, seq<Entry>>) {
    forall n, e | n in fs && Ours(n) && e in fs[n] :: Contiguous(e.mask)
  }

  lemma GrantIsContiguous(cfg: Config, g: Grant, uid: string)
    requires GrantOk(cfg, g, uid)
    ensures Contiguous(g.mask)
  {
    var start: nat :| g.mask == Mask(start, g.ways);
    assert IsRun(g.mask, Window(start, g.ways));
  }

  lemma StepKeepsContiguous(cfg: Config, s: State, a: Action)
    requires WellFormed(cfg, s) && ContiguousGroups(s.fs) && Enabled(s, a)
    ensures ContiguousGroups(Next(cfg, s, a).fs)
  {
    if a.Advance? && OnFiles(s.threads[a.t]) {
      var th := s.threads[a.t];
      assert ThreadOk(cfg, th);
      GrantIsContiguous(cfg, th.grant, th.uid);
    }
  }

  /** Whatever the driver writes, over any number of crashes, is one contiguous run. */
  lemma {:induction false} AlwaysContiguous(cfg: Config, s: State, run: seq<Action>)
    requires WellFormed(cfg, s) && ContiguousGroups(s.fs) && Possible(cfg, s, run)
    ensures ContiguousGroups(After(cfg, s, run).fs)
    decreases |run|
  {
    if |run| != 0 {
      AlwaysContiguous(cfg, s, run[..|run| - 1]);
      AlwaysWellFormed(cfg, s, run[..|run| - 1]);
      StepKeepsContiguous(cfg, After(cfg, s, run[..|run| - 1]), run[|run| - 1]);
    }
  }

  // ----- the runs of used ways of a domain

  ghost function HeldMasks(s: State, dom: int): set<bv64> {
    (set uid | uid in s.table && s.table[uid].dom == dom :: s.table[uid].mask)
    + (set t | t in s.threads && ThreadGrant(s.threads[t]).Some? && ThreadGrant(s.threads[t]).value.dom == dom ::
         ThreadGrant(s.threads[t]).value.mask)
  }

  /** The masks a restart found in the groups it could read. */
  ghost function SurvivingMasks(fs: map<string, seq<Entry>>, unreadable: set<string>, dom: int): set<bv64> {
    set n, e | n in fs && n !in unreadable && Ours(n) && e in fs[n] && e.dom == dom :: e.mask
  }

  /** The masks of the records that were overwritten. */
  ghost function LostMasks(cfg: Config, s: State, run: seq<Action>, dom: int): set<bv64>
    requires Possible(cfg, s, run)
    decreases |run|
  {
    if |run| == 0 then {} else
      var before, a := run[..|run| - 1], run[|run| - 1];
      LostMasks(cfg, s, before, dom) + OverwrittenMasks(After(cfg, s, before), a, dom)
  }

  ghost function OverwrittenMasks(s: State, a: Action, dom: int): set<bv64> {
    if a.Advance? && a.t in s.threads && s.threads[a.t].Recording? && s.threads[a.t].uid in s.table
       && s.table[s.threads[a.t].uid].dom == dom
    then {s.table[s.threads[a.t].uid].mask} else {}
  }

  /** All runs that may still be in use in a domain: of records, calls in flight, groups
      from before the restart, and overwritten records. */
  ghost function Outstanding(cfg: Config, fs: map<string, seq<Entry>>, unreadable: set<string>, run: seq<Action>,
                             dom: int): set<bv64>
    requires Possible(cfg, Boot(fs, unreadable), run)
  {
    HeldMasks(After(cfg, Boot(fs, unreadable), run), dom)
    + SurvivingMasks(fs, unreadable, dom)
    + LostMasks(cfg, Boot(fs, unreadable), run, dom)
  }

  ghost function UnionOf(masks: set<bv64>): set<nat> {
    set m, i | m in masks && i in Ways(m) :: i
  }

  lemma HeldUnion(s: State, dom: int)
    requires Isolated(s)
    ensures UsedIn(AllHeld(s), dom) == UnionOf(HeldMasks(s, dom))
  {
    forall i: nat ensures i in UsedIn(AllHeld(s), dom) <==> i in UnionOf(HeldMasks(s, dom)) {
      UsedInMember(AllHeld(s), dom, i);
      if i in UsedIn(AllHeld(s), dom) {
        var h :| Slot(dom, i) in Held(s, h);
        HolderMask(s, h, dom, i);
      }
      if i in UnionOf(HeldMasks(s, dom)) {
        var m :| m in HeldMasks(s, dom) && i in Ways(m);
        var h := MaskHolder(s, dom, m);
        MaskSlotsMember(dom, m, Slot(dom, i));
        assert Slot(dom, i) in Held(s, h) && Held(s, h) <= s.used;
      }
    }
  }

  lemma HolderMask(s: State, h: Holder, dom: int, i: nat)
    requires Slot(dom, i) in Held(s, h)
    ensures i in UnionOf(HeldMasks(s, dom))
  {
    var g := Holding(s, h).value;
    MaskSlotsMember(g.dom, g.mask, Slot(dom, i));
    assert g.mask in HeldMasks(s, dom);
  }

  lemma MaskHolder(s: State, dom: int, m: bv64) returns (h: Holder)
    requires m in HeldMasks(s, dom)
    ensures Holding(s, h).Some? && Holding(s, h).value.dom == dom && Holding(s, h).value.mask == m
  {
    if uid :| uid in s.table && s.table[uid].dom == dom && s.table[uid].mask == m {
      h := InTable(uid);
    } else {
      var t :| t in s.threads && ThreadGrant(s.threads[t]).Some? && ThreadGrant(s.threads[t]).value.dom == dom
               && ThreadGrant(s.threads[t]).value.mask == m;
      h := InThread(t);
    }
  }

  lemma SurvivingUnion(fs: map<string, seq<Entry>>, unreadable: set<string>, dom: int)
    ensures UsedIn(Rebuilt(fs, unreadable), dom) == UnionOf(SurvivingMasks(fs, unreadable, dom))
  {
    var masks := SurvivingMasks(fs, unreadable, dom);
    forall i: nat ensures i in UsedIn(Rebuilt(fs, unreadable), dom) <==> i in UnionOf(masks) {
      var slot := Slot(dom, i);
      UsedInMember(Rebuilt(fs, unreadable), dom, i);
      if slot in Rebuilt(fs, unreadable) {
        var n :| n in fs && n !in unreadable && slot in LiveSlots(fs, n);
        EntrySlotsMember(fs[n], slot);
        var e :| e in fs[n] && slot in MaskSlots(e.dom, e.mask);
        MaskSlotsMember(e.dom, e.mask, slot);
        assert e.mask in masks;
      }
      if i in UnionOf(masks) {
        var n, e :| n in fs && n !in unreadable && Ours(n) && e in fs[n] && e.dom == dom && i in Ways(e.mask);
        MaskSlotsMember(dom, e.mask, slot);
        EntrySlotsMember(fs[n], slot);
        assert slot in LiveSlots(fs, n);
      }
    }
  }

  lemma {:induction false} LostUnion(cfg: Config, s: State, run: seq<Action>, dom: int)
    requires Possible(cfg, s, run)
    ensures UsedIn(Lost(cfg, s, run), dom) == UnionOf(LostMasks(cfg, s, run, dom))
    decreases |run|
  {
    if |run| == 0 {
      assert UsedIn({}, dom) == {};
    } else {
      var before, a := run[..|run| - 1], run[|run| - 1];
      LostUnion(cfg, s, before, dom);
      OverwrittenUnion(After(cfg, s, before), a, dom);
      forall i: nat ensures i in UsedIn(Lost(cfg, s, run), dom) <==> i in UnionOf(LostMasks(cfg, s, run, dom)) {
        UsedInMember(Lost(cfg, s, run), dom, i);
        UsedInMember(Lost(cfg, s, before), dom, i);
        UsedInMember(Overwritten(After(cfg, s, before), a), dom, i);
      }
    }
  }

  lemma OverwrittenUnion(s: State, a: Action, dom: int)
    ensures UsedIn(Overwritten(s, a), dom) == UnionOf(OverwrittenMasks(s, a, dom))
  {
    forall i: nat ensures i in UsedIn(Overwritten(s, a), dom) <==> i in UnionOf(OverwrittenMasks(s, a, dom)) {
      UsedInMember(Overwritten(s, a), dom, i);
      if a.Advance? && a.t in s.threads && s.threads[a.t].Recording? && s.threads[a.t].uid in s.table {
        var g := s.table[s.threads[a.t].uid];
        MaskSlotsMember(g.dom, g.mask, Slot(dom, i));
      }
    }
  }

  lemma UnionSplits(a: set<bv64>, b: set<bv64>)
    ensures UnionOf(a + b) == UnionOf(a) + UnionOf(b)
  {
  }

  /** The used ways of a domain are exactly the outstanding runs. */
  lemma UsedIsOutstanding(cfg: Config, fs: map<string, seq<Entry>>, unreadable: set<string>, run: seq<Action>, dom: int)
    requires Possible(cfg, Boot(fs, unreadable), run) && CrashFree(run)
    ensures UsedIn(After(cfg, Boot(fs, unreadable), run).used, dom)
      == UnionOf(Outstanding(cfg, fs, unreadable, run, dom))
  {
    var start := Boot(fs, unreadable);
    var s, rebuilt, lost := After(cfg, start, run), Rebuilt(fs, unreadable), Lost(cfg, start, run);
    AlwaysIsolated(cfg, fs, unreadable, run);
    RecoveredStaysUsed(cfg, fs, unreadable, run);
    UsedSplits(s);
    UsedInUnion(AllHeld(s), Leaked(s), dom);
    UsedInUnion(rebuilt, lost, dom);
    HeldUnion(s, dom);
    SurvivingUnion(fs, unreadable, dom);
    LostUnion(cfg, start, run, dom);
    var held, surviving := HeldMasks(s, dom), SurvivingMasks(fs, unreadable, dom);
    UnionSplits(held, surviving);
    UnionSplits(held + surviving, LostMasks(cfg, start, run, dom));
  }

  // ----- contiguous runs as windows

  ghost function RunOf(mask: bv64): Window {
    if Contiguous(mask) then
      var w :| IsRun(mask, w); w
    else Window(0, 0)
  }

  lemma RunOfWays(mask: bv64)
    requires Contiguous(mask)
    ensures Ways(mask) == Span(RunOf(mask).start, RunOf(mask).ways)
  {
    WaysMask(RunOf(mask).start, RunOf(mask).ways);
  }

  ghost function RunsOf(masks: set<bv64>): set<Window> {
    set m | m in masks :: RunOf(m)
  }

  lemma {:induction false} RunsOfSize(masks: set<bv64>)
    ensures |RunsOf(masks)| <= |masks|
    decreases |masks|
  {
    if m :| m in masks {
      RunsOfSize(masks - {m});
      assert RunsOf(masks) == RunsOf(masks - {m}) + {RunOf(m)};
    } else {
      assert RunsOf(masks) == {};
    }
  }

  lemma UnionIsCovered(masks: set<bv64>)
    requires forall m | m in masks :: Contiguous(m)
    ensures UnionOf(masks) == Covered(RunsOf(masks))
  {
    forall i: nat ensures i in UnionOf(masks) <==> i in Covered(RunsOf(masks)) {
      if i in UnionOf(masks) {
        var m :| m in masks && i in Ways(m);
        RunOfWays(m);
        assert RunOf(m) in RunsOf(masks);
      }
      if i in Covered(RunsOf(masks)) {
        var w :| w in RunsOf(masks) && i in Span(w.start, w.ways);
        var m :| m in masks && RunOf(m) == w;
        RunOfWays(m);
      }
    }
  }

  lemma HeldIsContiguous(cfg: Config, s: State, dom: int)
    requires WellFormed(cfg, s)
    ensures forall m | m in HeldMasks(s, dom) :: Contiguous(m)
  {
    forall m | m in HeldMasks(s, dom) ensures Contiguous(m) {
      var h := MaskHolder(s, dom, m);
      var uid := if h.InTable? then h.uid else s.threads[h.t].uid;
      assert h.InThread? ==> ThreadOk(cfg, s.threads[h.t]);
      GrantIsContiguous(cfg, Holding(s, h).value, uid);
    }
  }

  lemma {:induction false} LostIsContiguous(cfg: Config, s: State, run: seq<Action>, dom: int)
    requires WellFormed(cfg, s) && Possible(cfg, s, run)
    ensures forall m | m in LostMasks(cfg, s, run, dom) :: Contiguous(m)
    decreases |run|
  {
    if |run| != 0 {
      var before, a := run[..|run| - 1], run[|run| - 1];
      LostIsContiguous(cfg, s, before, dom);
      AlwaysWellFormed(cfg, s, before);
      var s1 := After(cfg, s, before);
      forall m | m in OverwrittenMasks(s1, a, dom) ensures Contiguous(m) {
        GrantIsContiguous(cfg, s1.table[s1.threads[a.t].uid], s1.threads[a.t].uid);
      }
    }
  }

  lemma OutstandingIsContiguous(cfg: Config, fs: map<string, seq<Entry>>, unreadable: set<string>, run: seq<Action>,
                                dom: int)
    requires ContiguousGroups(fs) && Possible(cfg, Boot(fs, unreadable), run)
    ensures forall m | m in Outstanding(cfg, fs, unreadable, run, dom) :: Contiguous(m)
  {
    AlwaysWellFormed(cfg, Boot(fs, unreadable), run);
    HeldIsContiguous(cfg, After(cfg, Boot(fs, unreadable), run), dom);
    LostIsContiguous(cfg, Boot(fs, unreadable), run, dom);
  }

  /** At any time between restarts a request for `ways` ways is granted whenever more than
      (k + 1) * (ways - 1) ways are free, k being the number of outstanding runs of the
      domain: records, calls in flight, surviving groups and overwritten records. */
  lemma EnoughFreeIsGranted(cfg: Config, fs: map<string, seq<Entry>>, unreadable: set<string>, run: seq<Action>,
                            dom: int, ways: nat)
    requires ContiguousGroups(fs) && Possible(cfg, Boot(fs, unreadable), run) && CrashFree(run)
    requires dom in cfg.totals && 0 <= cfg.totals[dom] && 1 <= ways
    ensures var s := After(cfg, Boot(fs, unreadable), run);
            var k := |Outstanding(cfg, fs, unreadable, run, dom)|;
      FreeBelow(UsedIn(s.used, dom), cfg.totals[dom]) > (k + 1) * (ways - 1)
      ==> AllocateResult(cfg.totals, s.used, dom, ways).Ok?
  {
    var masks := Outstanding(cfg, fs, unreadable, run, dom);
    var used := UsedIn(After(cfg, Boot(fs, unreadable), run).used, dom);
    UsedIsOutstanding(cfg, fs, unreadable, run, dom);
    OutstandingIsContiguous(cfg, fs, unreadable, run, dom);
    UnionIsCovered(masks);
    RunsOfSize(masks);
    if FreeBelow(used, cfg.totals[dom]) > (|masks| + 1) * (ways - 1) {
      FragmentationBoundFor(cfg.totals[dom], used, RunsOf(masks), |masks|, ways);
    }
  }
}
