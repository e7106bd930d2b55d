/** When two live groups can come to share a way: exactly after the environment has
  failed its part once, even if it never fails again. */
module Sharing {
  import opened Results
  import opened Words
  import opened Windows
  import opened Slots
  import opened GoText
  import opened Schemata
  import opened Names
  import opened Protocol
  import opened Isolation
  import opened Conservation
  import opened CrashSafety
  import opened Reservation
  import opened Scenarios

  // ----- runs one after the other

  lemma {:induction false} Append(cfg: Config, s: State, a: seq<Action>, b: seq<Action>)
    requires Possible(cfg, s, a) && Possible(cfg, After(cfg, s, a), b)
    ensures Possible(cfg, s, a + b)
    ensures After(cfg, s, a + b) == After(cfg, After(cfg, s, a), b)
    decreases |b|
  {
    if |b| == 0 {
      assert a + b == a;
    } else {
      var before, last := b[..|b| - 1], b[|b| - 1];
      Append(cfg, s, a, before);
      Extend(cfg, s, a + before, last);
      assert a + before + [last] == a + b;
    }
  }

  lemma ExtendClean(cfg: Config, s: State, run: seq<Action>, a: Action)
    requires Possible(cfg, s, run) && Enabled(After(cfg, s, run), a)
    requires CleanRun(cfg, s, run) && Clean(After(cfg, s, run), a)
    ensures Possible(cfg, s, run + [a]) && CleanRun(cfg, s, run + [a])
  {
    Extend(cfg, s, run, a);
    assert (run + [a])[..|run + [a]| - 1] == run;
  }

  lemma {:induction false} AppendClean(cfg: Config, s: State, a: seq<Action>, b: seq<Action>)
    requires Possible(cfg, s, a) && Possible(cfg, After(cfg, s, a), b)
    requires CleanRun(cfg, s, a) && CleanRun(cfg, After(cfg, s, a), b)
    ensures Possible(cfg, s, a + b) && CleanRun(cfg, s, a + b)
    decreases |b|
  {
    if |b| == 0 {
      assert a + b == a;
    } else {
      var before, last := b[..|b| - 1], b[|b| - 1];
      AppendClean(cfg, s, a, before);
      Append(cfg, s, a, before);
      ExtendClean(cfg, s, a + before, last);
      assert a + before + [last] == a + b;
    }
  }

  /** Runs in which every file operation succeeds and nothing crashes. */
  predicate AllWell(run: seq<Action>) {
    forall a | a in run :: !a.Crash? && (a.Advance? ==> a.ok)
  }

  lemma {:induction false} AllWellIsClean(cfg: Config, s: State, run: seq<Action>)
    requires AllWell(run) && Possible(cfg, s, run)
    ensures CleanRun(cfg, s, run)
    decreases |run|
  {
    if |run| != 0 {
      assert run[|run| - 1] in run;
      AllWellIsClean(cfg, s, run[..|run| - 1]);
    }
  }

  // ----- a free way of a live group is taken sooner or later

  /** Both groups are live and hold the way. */
  ghost predicate Share(fs: map<string, seq<Entry>>, n: string, m: string, slot: Slot) {
    n != m && slot in LiveSlots(fs, n) && slot in LiveSlots(fs, m)
  }

  lemma SharedIsNotDisjoint(fs: map<string, seq<Entry>>, n: string, m: string, slot: Slot)
    requires Share(fs, n, m, slot)
    ensures !GroupsDisjoint(fs)
  {
  }

  /** One way is granted first fit, below the wanted way or at it. */
  lemma OneWayGrant(totals: map<int, int>, used: set<Slot>, dom: int, way: nat) returns (start: nat)
    requires dom in totals && way < totals[dom] <= WORD && Slot(dom, way) !in used
    ensures AllocateResult(totals, used, dom, 1) == Ok(Mask(start, 1))
    ensures start <= way && start !in UsedIn(used, dom)
    ensures MaskSlots(dom, Mask(start, 1)) == {Slot(dom, start)}
  {
    UsedInMember(used, dom, way);
    FirstFitExact(totals[dom], UsedIn(used, dom), 1);
    OneWay(way);
    assert Free(UsedIn(used, dom), way, 1);
    start := FirstFit(totals[dom], UsedIn(used, dom), 1).value;
    OneWay(start);
    WaysMask(start, 1);
    assert start in Span(start, 1);
  }

  lemma OneWay(start: nat)
    requires start < WORD
    ensures Span(start, 1) == {start}
  {
    forall i: nat ensures Within(start, 1, i) <==> i == start { }
  }

  lemma {:induction false} OneWayLess(used: set<nat>, more: set<nat>, start: nat, way: nat)
    requires start !in used && start < way && more == used + {start}
    ensures FreeBelow(more, way) < FreeBelow(used, way)
  {
    FreePlusUsed(used, way);
    FreePlusUsed(more, way);
    assert Below(way, start);
    assert more * Prefix(way) == used * Prefix(way) + {start};
  }

  /** A single-way prepare of claim v: its group then holds the way it got, and no other
      group has changed. */
  lemma OneWayPrepare(cfg: Config, s: State, t: int, v: string, dom: int, start: nat)
    requires t !in s.threads && IsInt64(dom) && Ours(cfg.groupOf(dom, v))
    requires AllocateResult(cfg.totals, s.used, dom, 1) == Ok(Mask(start, 1))
    requires MaskSlots(dom, Mask(start, 1)) == {Slot(dom, start)}
    ensures var run := FullPrepare(t, v, Request(dom, 1));
      && Possible(cfg, s, run) && AllWell(run)
      && var s' := After(cfg, s, run);
      && s'.used == s.used + {Slot(dom, start)} && s'.threads == s.threads
      && LiveSlots(s'.fs, cfg.groupOf(dom, v)) == {Slot(dom, start)}
      && forall n :: n != cfg.groupOf(dom, v) ==> LiveSlots(s'.fs, n) == LiveSlots(s.fs, n)
  {
    var r := Request(dom, 1);
    PrepareAlone(cfg, s, t, v, r);
    var g := GrantFor(cfg, s, v, r);
    WrittenEntries(g);
    assert After(cfg, s, FullPrepare(t, v, r)).fs[g.group] == GrantEntries(g);
  }

  /** The calls of the run are prepares of claim v. */
  predicate PreparesOnly(run: seq<Action>, v: string) {
    forall a | a in run :: !a.BeginUnprepare? && (a.BeginPrepare? ==> a.uid == v)
  }

  lemma AppendWell(cfg: Config, s: State, a: seq<Action>, b: seq<Action>)
    requires Possible(cfg, s, a) && Possible(cfg, After(cfg, s, a), b) && AllWell(a) && AllWell(b)
    ensures Possible(cfg, s, a + b) && AllWell(a + b)
    ensures After(cfg, s, a + b) == After(cfg, After(cfg, s, a), b)
  {
    Append(cfg, s, a, b);
  }

  /** A way that the allocator thinks is free is granted to the next single-way prepare
      after sufficiently many of them; no other group changes meanwhile. */
  lemma {:induction false} FreeWayIsGranted(cfg: Config, s: State, t: int, v: string, dom: int, way: nat)
    returns (run: seq<Action>)
    requires t !in s.threads && IsInt64(dom) && dom in cfg.totals && way < cfg.totals[dom] <= WORD
    requires Slot(dom, way) !in s.used && Ours(cfg.groupOf(dom, v))
    ensures Possible(cfg, s, run) && AllWell(run) && PreparesOnly(run, v)
    ensures ComesNext(cfg, s, After(cfg, s, run), v, dom, way)
    decreases FreeBelow(UsedIn(s.used, dom), way)
  {
    var start := OneWayGrant(cfg.totals, s.used, dom, way);
    if start == way {
      run := [];
    } else {
      var first := FullPrepare(t, v, Request(dom, 1));
      OneWayLower(cfg, s, t, v, dom, way, start);
      var s1 := After(cfg, s, first);
      var rest := FreeWayIsGranted(cfg, s1, t, v, dom, way);
      AppendWell(cfg, s, first, rest);
      ComesNextLater(cfg, s, s1, After(cfg, s1, rest), v, dom, way);
      run := first + rest;
    }
  }

  /** A single-way prepare that gets a lower way. */
  lemma OneWayLower(cfg: Config, s: State, t: int, v: string, dom: int, way: nat, start: nat)
    requires t !in s.threads && IsInt64(dom) && Ours(cfg.groupOf(dom, v))
    requires start < way && start !in UsedIn(s.used, dom) && Slot(dom, way) !in s.used
    requires AllocateResult(cfg.totals, s.used, dom, 1) == Ok(Mask(start, 1))
    requires MaskSlots(dom, Mask(start, 1)) == {Slot(dom, start)}
    ensures var run := FullPrepare(t, v, Request(dom, 1));
      && Possible(cfg, s, run) && AllWell(run) && PreparesOnly(run, v)
      && var s' := After(cfg, s, run);
      && s'.threads == s.threads && Slot(dom, way) !in s'.used
      && FreeBelow(UsedIn(s'.used, dom), way) < FreeBelow(UsedIn(s.used, dom), way)
      && forall n :: n != cfg.groupOf(dom, v) ==> LiveSlots(s'.fs, n) == LiveSlots(s.fs, n)
  {
    UsedInMember(s.used, dom, start);
    OneWayPrepare(cfg, s, t, v, dom, start);
    OneWayUsed(s.used, s.used + {Slot(dom, start)}, dom, start, way);
  }

  lemma ComesNextLater(cfg: Config, s: State, s1: State, s2: State, v: string, dom: int, way: nat)
    requires ComesNext(cfg, s1, s2, v, dom, way) && s1.threads == s.threads
    requires forall n :: n != cfg.groupOf(dom, v) ==> LiveSlots(s1.fs, n) == LiveSlots(s.fs, n)
    ensures ComesNext(cfg, s, s2, v, dom, way)
  {
  }

  /** The way is granted to the next single-way request, with all groups but v's as before. */
  ghost predicate ComesNext(cfg: Config, s: State, s': State, v: string, dom: int, way: nat) {
    && AllocateResult(cfg.totals, s'.used, dom, 1) == Ok(Mask(way, 1))
    && MaskSlots(dom, Mask(way, 1)) == {Slot(dom, way)} && s'.threads == s.threads
    && forall n :: n != cfg.groupOf(dom, v) ==> LiveSlots(s'.fs, n) == LiveSlots(s.fs, n)
  }

  lemma OneWayUsed(used: set<Slot>, more: set<Slot>, dom: int, start: nat, way: nat)
    requires start < way && Slot(dom, start) !in used && more == used + {Slot(dom, start)}
    ensures FreeBelow(UsedIn(more, dom), way) < FreeBelow(UsedIn(used, dom), way)
  {
    forall i: nat ensures i in UsedIn(more, dom) <==> i in UsedIn(used, dom) || i == start {
      UsedInMember(used, dom, i);
      UsedInMember(more, dom, i);
    }
    UsedInMember(used, dom, start);
    OneWayLess(UsedIn(used, dom), UsedIn(more, dom), start, way);
  }

  /** When a live group holds that way, it is then in both groups. */
  lemma FreeLiveWayIsShared(cfg: Config, s: State, t: int, v: string, n: string, dom: int, way: nat)
    returns (run: seq<Action>)
    requires t !in s.threads && IsInt64(dom) && dom in cfg.totals && way < cfg.totals[dom] <= WORD
    requires Slot(dom, way) in LiveSlots(s.fs, n) && Slot(dom, way) !in s.used
    requires cfg.groupOf(dom, v) != n && Ours(cfg.groupOf(dom, v))
    ensures Possible(cfg, s, run) && AllWell(run)
    ensures Share(After(cfg, s, run).fs, n, cfg.groupOf(dom, v), Slot(dom, way))
  {
    var first := FreeWayIsGranted(cfg, s, t, v, dom, way);
    var s1, last := After(cfg, s, first), FullPrepare(t, v, Request(dom, 1));
    OneWayPrepare(cfg, s1, t, v, dom, way);
    AppendWell(cfg, s, first, last);
    run := first + last;
  }

  // ----- two claims to choose from

  /** A UUID of one repeated digit. */
  function SampleUUID(digit: char): string {
    seq(36, i requires 0 <= i < 36 => if HyphenAt(i) then '-' else digit)
  }

  lemma SamplesDiffer()
    ensures IsUUID(SampleUUID('0')) && IsUUID(SampleUUID('1')) && SampleUUID('0') != SampleUUID('1')
  {
    assert SampleUUID('0')[0] == '0' && SampleUUID('1')[0] == '1';
  }

  /** Some claim has another group than n. */
  lemma AnotherGroup(cfg: Config, dom: int, n: string) returns (v: string)
    requires NamesOk(cfg) && IsInt64(dom)
    ensures cfg.groupOf(dom, v) != n && Ours(cfg.groupOf(dom, v))
  {
    SamplesDiffer();
    v := if cfg.groupOf(dom, SampleUUID('0')) != n then SampleUUID('0') else SampleUUID('1');
  }

  // ----- what a failure of the environment leads to

  /** From here on no two live groups ever share a way, as long as the environment does
      its part. */
  ghost predicate Secure(cfg: Config, s: State) {
    forall future | Possible(cfg, s, future) && CleanRun(cfg, s, future) :: GroupsDisjoint(After(cfg, s, future).fs)
  }

  lemma InvariantIsSecure(cfg: Config, s: State)
    requires GroupsIsolated(s) && Isolated(s)
    ensures Secure(cfg, s)
  {
    forall future | Possible(cfg, s, future) && CleanRun(cfg, s, future)
      ensures GroupsDisjoint(After(cfg, s, future).fs)
    {
      GroupsStayIsolated(cfg, s, future);
    }
  }

  lemma FreeLiveWayIsInsecure(cfg: Config, s: State, t: int, n: string, slot: Slot)
    requires NamesOk(cfg) && WaysFit(cfg.totals) && SlotsInRange(cfg.totals, LiveSlots(s.fs, n))
    requires t !in s.threads && slot in LiveSlots(s.fs, n) && slot !in s.used
    ensures !Secure(cfg, s)
  {
    var v := AnotherGroup(cfg, slot.dom, n);
    assert slot == Slot(slot.dom, slot.way);
    var run := FreeLiveWayIsShared(cfg, s, t, v, n, slot.dom, slot.way);
    AllWellIsClean(cfg, s, run);
    SharedIsNotDisjoint(After(cfg, s, run).fs, n, cfg.groupOf(slot.dom, v), slot);
  }

  /** A group that keeps ways of a call that is about to return them. */
  lemma ReturnedLiveWayIsInsecure(cfg: Config, s: State, t: int, n: string, slot: Slot)
    requires NamesOk(cfg) && WaysFit(cfg.totals) && SlotsInRange(cfg.totals, LiveSlots(s.fs, n))
    requires t in s.threads && (s.threads[t].GivingBack? || s.threads[t].Freeing?)
    requires slot in LiveSlots(s.fs, n) && slot in GrantSlots(s.threads[t].grant)
    ensures !Secure(cfg, s)
  {
    ReleaseAsRun(cfg, s, t);
    FreeLiveWayIsInsecure(cfg, ReleaseStep(s, t, s.threads[t].grant), t, n, slot);
    InsecureBefore(cfg, s, [Advance(t, true)]);
  }

  lemma ReleaseAsRun(cfg: Config, s: State, t: int)
    requires t in s.threads && (s.threads[t].GivingBack? || s.threads[t].Freeing?)
    ensures var run := [Advance(t, true)];
      Possible(cfg, s, run) && CleanRun(cfg, s, run) && After(cfg, s, run) == ReleaseStep(s, t, s.threads[t].grant)
  {
    OneAction(cfg, s, Advance(t, true));
    AllWellIsClean(cfg, s, [Advance(t, true)]);
  }

  /** What is lost after a clean run was lost before it. */
  lemma InsecureBefore(cfg: Config, s: State, run: seq<Action>)
    requires Possible(cfg, s, run) && CleanRun(cfg, s, run) && !Secure(cfg, After(cfg, s, run))
    ensures !Secure(cfg, s)
  {
    var s' := After(cfg, s, run);
    var future :| Possible(cfg, s', future) && CleanRun(cfg, s', future) && !GroupsDisjoint(After(cfg, s', future).fs);
    Append(cfg, s, run, future);
    AppendClean(cfg, s, run, future);
    BadFuture(cfg, s, run + future);
  }

  lemma BadFuture(cfg: Config, s: State, future: seq<Action>)
    requires Possible(cfg, s, future) && CleanRun(cfg, s, future) && !GroupsDisjoint(After(cfg, s, future).fs)
    ensures !Secure(cfg, s)
  {
  }

  lemma UncleanRemovalIsInsecure(cfg: Config, s: State, t: int)
    requires NamesOk(cfg) && WaysFit(cfg.totals) && InRange(cfg, s)
    requires t in s.threads && !Clean(s, Advance(t, false))
    ensures !Secure(cfg, Next(cfg, s, Advance(t, false)))
  {
    var th, s' := s.threads[t], Next(cfg, s, Advance(t, false));
    var n := th.grant.group;
    var slot :| slot in GrantSlots(th.grant) && slot in LiveSlots(s.fs, n);
    assert s' == FileStep(s, t, th, false) && s'.fs == s.fs;
    assert s'.threads[t] == ThreadAfter(th, false) && s'.threads[t].grant == th.grant;
    ReturnedLiveWayIsInsecure(cfg, s', t, n, slot);
  }

  lemma UncleanCrashIsInsecure(cfg: Config, s: State, unreadable: set<string>)
    requires NamesOk(cfg) && WaysFit(cfg.totals) && InRange(cfg, s) && GroupsIsolated(s)
    requires !Clean(s, Crash(unreadable))
    ensures !Secure(cfg, Boot(s.fs, unreadable))
  {
    var s' := Boot(s.fs, unreadable);
    var n :| n in unreadable && LiveSlots(s.fs, n) != {};
    var slot :| slot in LiveSlots(s.fs, n);
    forall m | slot in LiveSlots(s.fs, m) ensures m == n { }
    assert slot !in s'.used;
    FreeLiveWayIsInsecure(cfg, s', 0, n, slot);
  }

  /** The exact condition for the promise itself: after a step from a sound state no
      continuation in which the environment does its part makes two live groups share a
      way, if and only if it did its part in the step. */
  lemma StepSecureIff(cfg: Config, s: State, a: Action)
    requires NamesOk(cfg) && WaysFit(cfg.totals) && InRange(cfg, s)
    requires GroupsIsolated(s) && Isolated(s) && Enabled(s, a)
    ensures Secure(cfg, Next(cfg, s, a)) <==> Clean(s, a)
  {
    if Clean(s, a) {
      StepKeepsGroupsIff(cfg, s, a);
      StepKeepsIsolation(cfg, s, a);
      InvariantIsSecure(cfg, Next(cfg, s, a));
    } else if a.Crash? {
      UncleanCrashIsInsecure(cfg, s, a.unreadable);
    } else {
      assert a == Advance(a.t, false);
      UncleanRemovalIsInsecure(cfg, s, a.t);
    }
  }

  /** The state after every prefix of the run is secure. */
  ghost predicate SecureRun(cfg: Config, s: State, run: seq<Action>)
    requires Possible(cfg, s, run)
    decreases |run|
  {
    && Secure(cfg, After(cfg, s, run))
    && (|run| != 0 ==> SecureRun(cfg, s, run[..|run| - 1]))
  }

  /** The same for whole runs, with any number of crashes: after every prefix, no
      continuation in which the environment does its part makes two live groups share a
      way, if and only if every removal and every restart of the run did its part. */
  lemma {:induction false} RunSecureIff(cfg: Config, s: State, run: seq<Action>)
    requires NamesOk(cfg) && WaysFit(cfg.totals) && InRange(cfg, s) && WellFormed(cfg, s)
    requires GroupsIsolated(s) && Isolated(s) && Possible(cfg, s, run)
    ensures SecureRun(cfg, s, run) <==> CleanRun(cfg, s, run)
    decreases |run|
  {
    if |run| == 0 {
      InvariantIsSecure(cfg, s);
    } else {
      var before := run[..|run| - 1];
      RunSecureIff(cfg, s, before);
      if CleanRun(cfg, s, before) {
        GroupsStayIsolated(cfg, s, before);
        AlwaysInRange(cfg, s, before);
        StepSecureIff(cfg, After(cfg, s, before), run[|run| - 1]);
      }
    }
  }

  /** For the driver on a node with disjoint groups. */
  lemma DriverSecureIff(totals: map<int, int>, fs: map<string, seq<Entry>>, run: seq<Action>)
    requires WaysFit(totals) && GroupsDisjoint(fs) && forall n :: SlotsInRange(totals, LiveSlots(fs, n))
    requires Possible(DriverConfig(totals), Boot(fs, {}), run)
    ensures SecureRun(DriverConfig(totals), Boot(fs, {}), run) <==> CleanRun(DriverConfig(totals), Boot(fs, {}), run)
  {
    var cfg := DriverConfig(totals);
    DriverNamesOk(totals);
    BootIsolatesGroups(fs);
    BootIsIsolated(fs, {});
    RebuiltInRange(cfg, fs, {});
    RunSecureIff(cfg, Boot(fs, {}), run);
  }
}
