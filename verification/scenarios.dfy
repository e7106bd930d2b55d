/** Runs written out: an undisturbed prepare and unprepare, and what fails when the
  condition of a guarantee is dropped. */
module Scenarios {
  import opened Results
  import opened Words
  import opened Windows
  import opened Slots
  import opened GoText
  import opened Schemata
  import opened Names
  import opened Protocol
  import opened Isolation
  import opened Conservation
  import opened Reservation

  // ----- a removal that fails

  /** A complete unprepare whose group removal fails. */
  function FailedUnprepare(t: int, uid: string): seq<Action> {
    [BeginUnprepare(t, uid)] + [Advance(t, true)] + [Advance(t, false)] + [Advance(t, true)]
  }

  /** An unprepare forgets the claim. */
  lemma ForgetStart(cfg: Config, s: State, t: int, uid: string)
    requires t !in s.threads && uid in s.table
    ensures var run := [BeginUnprepare(t, uid)] + [Advance(t, true)];
      && Possible(cfg, s, run)
      && After(cfg, s, run) == Goto(s.(table := s.table - {uid}), t, RemovingGroup(uid, s.table[uid]))
  {
    var begin := BeginUnprepare(t, uid);
    Extend(cfg, s, [], begin);
    assert [] + [begin] == [begin];
    assert After(cfg, s, [begin]) == Goto(s, t, Forgetting(uid));
    Extend(cfg, s, [begin], Advance(t, true));
  }

  /** The ways go back to the allocator although the group keeps them. */
  lemma FailedRemovalFreesLiveWays(cfg: Config, s: State, t: int, uid: string)
    requires t !in s.threads && uid in s.table
    ensures var g, run := s.table[uid], FailedUnprepare(t, uid);
      && Possible(cfg, s, run)
      && After(cfg, s, run) == State(s.used - GrantSlots(g), s.table - {uid}, s.fs, s.threads)
  {
    var g, run := s.table[uid], [BeginUnprepare(t, uid)] + [Advance(t, true)];
    var s2 := Goto(s.(table := s.table - {uid}), t, RemovingGroup(uid, g));
    ForgetStart(cfg, s, t, uid);
    FailedRemovalEnd(cfg, s, s2, t, uid, g, run);
    assert s2.threads - {t} == s.threads;
  }

  lemma FailedRemovalEnd(cfg: Config, s0: State, s: State, t: int, uid: string, g: Grant, run: seq<Action>)
    requires Possible(cfg, s0, run) && After(cfg, s0, run) == s
    requires t in s.threads && s.threads[t] == RemovingGroup(uid, g)
    ensures var a, b := Advance(t, true), Advance(t, false);
      && Possible(cfg, s0, run + [b] + [a])
      && After(cfg, s0, run + [b] + [a]) == s.(used := s.used - GrantSlots(g), threads := s.threads - {t})
  {
    var a, b := Advance(t, true), Advance(t, false);
    Extend(cfg, s0, run, b);
    var s1 := Goto(s, t, Freeing(uid, g));
    assert After(cfg, s0, run + [b]) == s1;
    Extend(cfg, s0, run + [b], a);
    assert s1.threads - {t} == s.threads - {t};
  }

  // ----- a prepare that runs alone

  /** A complete prepare of one device in which everything succeeds. */
  function FullPrepare(t: int, uid: string, r: Request): seq<Action> {
    [BeginPrepare(t, uid, [r])] + [Advance(t, true)] + [Advance(t, true)] + [Advance(t, true)]
    + [Advance(t, true)] + [Advance(t, true)] + [Advance(t, true)]
  }

  /** The grant an undisturbed prepare gets. */
  ghost function GrantFor(cfg: Config, s: State, uid: string, r: Request): Grant
    requires AllocateResult(cfg.totals, s.used, r.dom, r.ways).Ok?
  {
    Grant(r.dom, r.ways, AllocateResult(cfg.totals, s.used, r.dom, r.ways).value, cfg.groupOf(r.dom, uid))
  }

  /** A call starts and reserves its ways. */
  lemma PrepareStart(cfg: Config, s: State, t: int, uid: string, r: Request)
    requires t !in s.threads && IsInt64(r.dom)
    requires AllocateResult(cfg.totals, s.used, r.dom, r.ways).Ok?
    ensures var g, run := GrantFor(cfg, s, uid, r), [BeginPrepare(t, uid, [r])] + [Advance(t, true)];
      && Possible(cfg, s, run)
      && After(cfg, s, run) == Goto(s.(used := s.used + GrantSlots(g)), t, MakingDir(uid, [], g))
  {
    var begin := BeginPrepare(t, uid, [r]);
    assert [r][1..] == [];
    Extend(cfg, s, [], begin);
    assert [] + [begin] == [begin];
    Extend(cfg, s, [begin], Advance(t, true));
  }

  /** Creating the directory. */
  lemma PrepareDir(cfg: Config, s0: State, s: State, t: int, uid: string, g: Grant, run: seq<Action>)
    requires Possible(cfg, s0, run) && After(cfg, s0, run) == s
    requires t in s.threads && s.threads[t] == MakingDir(uid, [], g)
    ensures var made := if g.group in s.fs then s.fs else s.fs[g.group := []];
      && Possible(cfg, s0, run + [Advance(t, true)])
      && After(cfg, s0, run + [Advance(t, true)]) == Goto(s.(fs := made), t, WritingSchemata(uid, [], g))
  {
    Extend(cfg, s0, run, Advance(t, true));
  }

  /** Writing the schemata and the CDI file. */
  lemma PrepareWrites(cfg: Config, s0: State, s: State, t: int, uid: string, g: Grant, run: seq<Action>)
    requires Possible(cfg, s0, run) && After(cfg, s0, run) == s
    requires t in s.threads && s.threads[t] == WritingSchemata(uid, [], g) && g.group in s.fs
    ensures var a := Advance(t, true);
      && Possible(cfg, s0, run + [a] + [a])
      && After(cfg, s0, run + [a] + [a])
         == Goto(s.(fs := s.fs[g.group := GrantEntries(g)]), t, Recording(uid, [], g))
  {
    var a := Advance(t, true);
    Extend(cfg, s0, run, a);
    assert After(cfg, s0, run + [a]) == Goto(s.(fs := s.fs[g.group := GrantEntries(g)]), t, WritingSpec(uid, [], g));
    Extend(cfg, s0, run + [a], a);
  }

  /** All file operations. */
  lemma PrepareFiles(cfg: Config, s0: State, s: State, t: int, uid: string, g: Grant, run: seq<Action>)
    requires Possible(cfg, s0, run) && After(cfg, s0, run) == s
    requires t in s.threads && s.threads[t] == MakingDir(uid, [], g)
    ensures var a := Advance(t, true);
      && Possible(cfg, s0, run + [a] + [a] + [a])
      && After(cfg, s0, run + [a] + [a] + [a])
         == Goto(s.(fs := s.fs[g.group := GrantEntries(g)]), t, Recording(uid, [], g))
  {
    var a := Advance(t, true);
    var made := if g.group in s.fs then s.fs else s.fs[g.group := []];
    var s1 := Goto(s.(fs := made), t, WritingSchemata(uid, [], g));
    PrepareDir(cfg, s0, s, t, uid, g, run);
    PrepareWrites(cfg, s0, s1, t, uid, g, run + [a]);
    assert made[g.group := GrantEntries(g)] == s.fs[g.group := GrantEntries(g)];
  }

  /** Recording the grant and returning. */
  lemma PrepareEnd(cfg: Config, s0: State, s: State, t: int, uid: string, g: Grant, run: seq<Action>)
    requires Possible(cfg, s0, run) && After(cfg, s0, run) == s
    requires t in s.threads && s.threads[t] == Recording(uid, [], g)
    ensures var a := Advance(t, true);
      && Possible(cfg, s0, run + [a] + [a])
      && After(cfg, s0, run + [a] + [a]) == s.(table := s.table[uid := g], threads := s.threads - {t})
  {
    var a := Advance(t, true);
    Extend(cfg, s0, run, a);
    var s1 := Goto(s.(table := s.table[uid := g]), t, Allocating(uid, []));
    assert After(cfg, s0, run + [a]) == s1;
    Extend(cfg, s0, run + [a], a);
    assert s1.threads - {t} == s.threads - {t};
  }

  lemma PrepareAlone(cfg: Config, s: State, t: int, uid: string, r: Request)
    requires t !in s.threads && IsInt64(r.dom)
    requires AllocateResult(cfg.totals, s.used, r.dom, r.ways).Ok?
    ensures var g := GrantFor(cfg, s, uid, r);
      && Possible(cfg, s, FullPrepare(t, uid, r))
      && After(cfg, s, FullPrepare(t, uid, r))
         == State(s.used + GrantSlots(g), s.table[uid := g], s.fs[g.group := GrantEntries(g)], s.threads)
  {
    var g, a := GrantFor(cfg, s, uid, r), Advance(t, true);
    var run := [BeginPrepare(t, uid, [r])] + [a];
    var s2 := Goto(s.(used := s.used + GrantSlots(g)), t, MakingDir(uid, [], g));
    var s5 := Goto(s2.(fs := s.fs[g.group := GrantEntries(g)]), t, Recording(uid, [], g));
    PrepareStart(cfg, s, t, uid, r);
    PrepareFiles(cfg, s, s2, t, uid, g, run);
    PrepareEnd(cfg, s, s5, t, uid, g, run + [a] + [a] + [a]);
    assert s5.threads - {t} == s.threads;
    assert FullPrepare(t, uid, r) == run + [a] + [a] + [a] + [a] + [a];
  }

  /** A complete unprepare in which the removal succeeds. */
  function FullUnprepare(t: int, uid: string): seq<Action> {
    [BeginUnprepare(t, uid)] + [Advance(t, true)] + [Advance(t, true)] + [Advance(t, true)]
  }

  lemma UnprepareAlone(cfg: Config, s: State, t: int, uid: string)
    requires t !in s.threads && uid in s.table && s.table[uid].group in s.fs
    ensures var g, run := s.table[uid], FullUnprepare(t, uid);
      && Possible(cfg, s, run)
      && After(cfg, s, run) == State(s.used - GrantSlots(g), s.table - {uid}, s.fs - {g.group}, s.threads)
  {
    var g, run := s.table[uid], [BeginUnprepare(t, uid)] + [Advance(t, true)];
    var s2 := Goto(s.(table := s.table - {uid}), t, RemovingGroup(uid, g));
    ForgetStart(cfg, s, t, uid);
    RemovalEnd(cfg, s, s2, t, uid, g, run);
    assert s2.threads - {t} == s.threads;
  }

  lemma RemovalEnd(cfg: Config, s0: State, s: State, t: int, uid: string, g: Grant, run: seq<Action>)
    requires Possible(cfg, s0, run) && After(cfg, s0, run) == s
    requires t in s.threads && s.threads[t] == RemovingGroup(uid, g) && g.group in s.fs
    ensures var a := Advance(t, true);
      && Possible(cfg, s0, run + [a] + [a])
      && After(cfg, s0, run + [a] + [a]) == State(s.used - GrantSlots(g), s.table, s.fs - {g.group}, s.threads - {t})
  {
    var a := Advance(t, true);
    Extend(cfg, s0, run, a);
    var s1 := Goto(s.(fs := s.fs - {g.group}), t, Freeing(uid, g));
    assert After(cfg, s0, run + [a]) == s1;
    Extend(cfg, s0, run + [a], a);
    assert s1.threads - {t} == s.threads - {t};
  }

  /** An undisturbed unprepare undoes an undisturbed prepare of a claim that was not
      prepared: used ways, table, groups and calls are as before. */
  lemma UnprepareUndoesPrepare(cfg: Config, s: State, t: int, uid: string, r: Request)
    requires t !in s.threads && IsInt64(r.dom) && uid !in s.table && cfg.groupOf(r.dom, uid) !in s.fs
    requires AllocateResult(cfg.totals, s.used, r.dom, r.ways).Ok?
    ensures Possible(cfg, s, FullPrepare(t, uid, r))
    ensures Possible(cfg, After(cfg, s, FullPrepare(t, uid, r)), FullUnprepare(t, uid))
    ensures After(cfg, After(cfg, s, FullPrepare(t, uid, r)), FullUnprepare(t, uid)) == s
  {
    PrepareAlone(cfg, s, t, uid, r);
    var g, s1 := GrantFor(cfg, s, uid, r), After(cfg, s, FullPrepare(t, uid, r));
    UnprepareAlone(cfg, s1, t, uid);
    GrantIsFree(cfg.totals, s.used, r.dom, r.ways);
    assert s1.used - GrantSlots(g) == s.used;
    assert s1.table - {uid} == s.table;
    assert s1.fs - {g.group} == s.fs;
  }

  // ----- two claims on one way

  /** A one-way domain in which u is prepared, unprepared with a failing removal, and
      v is prepared: the groups of u and v are both live and hold the same way. */
  lemma FailedRemovalSharesWays(u: string, v: string)
    requires IsUUID(u) && IsUUID(v) && u != v
    ensures var cfg := DriverConfig(map[0 := 1]);
            var s0 := Boot(map[], {});
      exists s1, s2, s3 ::
        && Possible(cfg, s0, FullPrepare(0, u, Request(0, 1))) && s1 == After(cfg, s0, FullPrepare(0, u, Request(0, 1)))
        && Possible(cfg, s1, FailedUnprepare(0, u)) && s2 == After(cfg, s1, FailedUnprepare(0, u))
        && Possible(cfg, s2, FullPrepare(0, v, Request(0, 1))) && s3 == After(cfg, s2, FullPrepare(0, v, Request(0, 1)))
        && cfg.groupOf(0, u) != cfg.groupOf(0, v)
        && LiveSlots(s3.fs, cfg.groupOf(0, u)) == LiveSlots(s3.fs, cfg.groupOf(0, v)) == {Slot(0, 0)}
  {
    var cfg := DriverConfig(map[0 := 1]);
    var s0, r := Boot(map[], {}), Request(0, 1);
    DriverNamesOk(map[0 := 1]);
    assert s0 == State({}, map[], map[], map[]);
    SharedWay(cfg, s0, u, v);
  }

  lemma SharedWay(cfg: Config, s0: State, u: string, v: string)
    requires cfg.totals == map[0 := 1] && NamesOk(cfg) && s0 == State({}, map[], map[], map[])
    requires IsUUID(u) && IsUUID(v) && u != v
    ensures exists s1, s2, s3 ::
        && Possible(cfg, s0, FullPrepare(0, u, Request(0, 1))) && s1 == After(cfg, s0, FullPrepare(0, u, Request(0, 1)))
        && Possible(cfg, s1, FailedUnprepare(0, u)) && s2 == After(cfg, s1, FailedUnprepare(0, u))
        && Possible(cfg, s2, FullPrepare(0, v, Request(0, 1))) && s3 == After(cfg, s2, FullPrepare(0, v, Request(0, 1)))
        && cfg.groupOf(0, u) != cfg.groupOf(0, v)
        && LiveSlots(s3.fs, cfg.groupOf(0, u)) == LiveSlots(s3.fs, cfg.groupOf(0, v)) == {Slot(0, 0)}
  {
    var r := Request(0, 1);
    OnlyWay(cfg.totals);
    PrepareAlone(cfg, s0, 0, u, r);
    var s1, g := After(cfg, s0, FullPrepare(0, u, r)), GrantFor(cfg, s0, u, r);
    FailedRemovalFreesLiveWays(cfg, s1, 0, u);
    var s2 := After(cfg, s1, FailedUnprepare(0, u));
    assert s2.used == {};
    PrepareAlone(cfg, s2, 0, v, r);
    var s3, h := After(cfg, s2, FullPrepare(0, v, r)), GrantFor(cfg, s2, v, r);
    WrittenEntries(g);
    WrittenEntries(h);
    assert s3.fs[g.group] == GrantEntries(g) && s3.fs[h.group] == GrantEntries(h);
  }

  lemma OnlyWay(totals: map<int, int>)
    requires totals == map[0 := 1]
    ensures AllocateResult(totals, {}, 0, 1) == Ok(Mask(0, 1))
    ensures MaskSlots(0, Mask(0, 1)) == {Slot(0, 0)}
  {
    assert UsedIn({}, 0) == {};
    assert FirstFitFrom(1, {}, 1, 0) == Some(0);
    WaysMask(0, 1);
    forall i: nat ensures Within(0, 1, i) <==> i == 0 { }
    assert Span(0, 1) == {0};
  }

  // ----- preparing a prepared claim again

  /** How an undisturbed prepare of one device ends: without ways, without a directory,
      without the schemata or the CDI file and an attempt to remove the directory, or
      with success. */
  datatype Outcome = NoWays | NoDir | NotWritten(undone: bool) | NoSpec(undone: bool) | Done

  function OnePrepare(t: int, uid: string, r: Request, o: Outcome): seq<Action> {
    var yes, no := [Advance(t, true)], [Advance(t, false)];
    var reserved := [BeginPrepare(t, uid, [r])] + yes;
    match o
    case NoWays => reserved
    case NoDir => reserved + no + yes
    case NotWritten(undone) => reserved + yes + no + [Advance(t, undone)] + yes
    case NoSpec(undone) => reserved + yes + yes + no + [Advance(t, undone)] + yes
    case Done => FullPrepare(t, uid, r)
  }

  /** The group is removed, or not, and the ways go back. */
  lemma Undo(cfg: Config, s0: State, s: State, t: int, uid: string, g: Grant, run: seq<Action>, undone: bool)
    requires Possible(cfg, s0, run) && After(cfg, s0, run) == s && t in s.threads
    requires s.threads[t] == UndoingDir(uid, g) || s.threads[t] == UndoingGroup(uid, g)
    requires undone ==> g.group in s.fs
    ensures var a, b := Advance(t, true), Advance(t, undone);
      && Possible(cfg, s0, run + [b] + [a])
      && After(cfg, s0, run + [b] + [a])
         == State(s.used - GrantSlots(g), s.table, if undone then s.fs - {g.group} else s.fs, s.threads - {t})
  {
    var a, b := Advance(t, true), Advance(t, undone);
    Extend(cfg, s0, run, b);
    var s1 := Goto(s.(fs := if undone then s.fs - {g.group} else s.fs), t, GivingBack(uid, g));
    assert After(cfg, s0, run + [b]) == s1;
    Extend(cfg, s0, run + [b], a);
    assert s1.threads - {t} == s.threads - {t};
  }

  /** A file operation fails. */
  lemma Fail(cfg: Config, s0: State, s: State, t: int, run: seq<Action>)
    requires Possible(cfg, s0, run) && After(cfg, s0, run) == s && t in s.threads && OnFiles(s.threads[t])
    ensures Possible(cfg, s0, run + [Advance(t, false)])
    ensures After(cfg, s0, run + [Advance(t, false)]) == Goto(s, t, ThreadAfter(s.threads[t], false))
  {
    Extend(cfg, s0, run, Advance(t, false));
  }

  /** The groups after the prepare, in the group of the grant. */
  function GroupsAfterPrepare(fs: map<string, seq<Entry>>, g: Grant, o: Outcome): map<string, seq<Entry>> {
    match o
    case NoWays => fs
    case NoDir => fs
    case NotWritten(undone) => if undone then fs - {g.group} else fs
    case NoSpec(undone) => if undone then fs - {g.group} else fs[g.group := GrantEntries(g)]
    case Done => fs[g.group := GrantEntries(g)]
  }

  /** A prepare that gets no ways changes nothing. */
  lemma NoWaysPrepare(cfg: Config, s: State, t: int, uid: string, r: Request)
    requires t !in s.threads && IsInt64(r.dom) && AllocateResult(cfg.totals, s.used, r.dom, r.ways).Err?
    ensures Possible(cfg, s, OnePrepare(t, uid, r, NoWays)) && After(cfg, s, OnePrepare(t, uid, r, NoWays)) == s
  {
    var begin := BeginPrepare(t, uid, [r]);
    Extend(cfg, s, [], begin);
    assert [] + [begin] == [begin];
    var s1 := Goto(s, t, Allocating(uid, [r]));
    assert After(cfg, s, [begin]) == s1;
    Extend(cfg, s, [begin], Advance(t, true));
    assert s1.threads - {t} == s.threads;
  }

  /** Preparing into an existing group, with a failure after the ways are reserved. */
  lemma NoDirPrepare(cfg: Config, s: State, t: int, uid: string, r: Request)
    requires t !in s.threads && IsInt64(r.dom) && cfg.groupOf(r.dom, uid) in s.fs
    requires AllocateResult(cfg.totals, s.used, r.dom, r.ways).Ok?
    ensures var run := OnePrepare(t, uid, r, NoDir);
      && Possible(cfg, s, run)
      && After(cfg, s, run) == s.(fs := GroupsAfterPrepare(s.fs, GrantFor(cfg, s, uid, r), NoDir))
  {
    var g, yes := GrantFor(cfg, s, uid, r), [Advance(t, true)];
    var run := [BeginPrepare(t, uid, [r])] + yes;
    var s1 := Goto(s.(used := s.used + GrantSlots(g)), t, MakingDir(uid, [], g));
    PrepareStart(cfg, s, t, uid, r);
    GrantIsFree(cfg.totals, s.used, r.dom, r.ways);
    Fail(cfg, s, s1, t, run);
    NoDirEnd(cfg, s, s, t, uid, g, run + [Advance(t, false)]);
  }

  lemma DirIsThere(cfg: Config, s: State, t: int, uid: string, r: Request)
    requires t !in s.threads && IsInt64(r.dom) && cfg.groupOf(r.dom, uid) in s.fs
    requires AllocateResult(cfg.totals, s.used, r.dom, r.ways).Ok?
    ensures var g, yes := GrantFor(cfg, s, uid, r), [Advance(t, true)];
            var run := [BeginPrepare(t, uid, [r])] + yes + yes;
      && Possible(cfg, s, run)
      && After(cfg, s, run) == Goto(s.(used := s.used + GrantSlots(g)), t, WritingSchemata(uid, [], g))
      && s.used + GrantSlots(g) - GrantSlots(g) == s.used
  {
    var g, run := GrantFor(cfg, s, uid, r), [BeginPrepare(t, uid, [r])] + [Advance(t, true)];
    PrepareStart(cfg, s, t, uid, r);
    PrepareDir(cfg, s, Goto(s.(used := s.used + GrantSlots(g)), t, MakingDir(uid, [], g)), t, uid, g, run);
    GrantIsFree(cfg.totals, s.used, r.dom, r.ways);
  }

  lemma NotWrittenPrepare(cfg: Config, s: State, t: int, uid: string, r: Request, undone: bool)
    requires t !in s.threads && IsInt64(r.dom) && cfg.groupOf(r.dom, uid) in s.fs
    requires AllocateResult(cfg.totals, s.used, r.dom, r.ways).Ok?
    ensures var run := OnePrepare(t, uid, r, NotWritten(undone));
      && Possible(cfg, s, run)
      && After(cfg, s, run) == s.(fs := GroupsAfterPrepare(s.fs, GrantFor(cfg, s, uid, r), NotWritten(undone)))
  {
    var g, yes := GrantFor(cfg, s, uid, r), [Advance(t, true)];
    var s1 := Goto(s.(used := s.used + GrantSlots(g)), t, WritingSchemata(uid, [], g));
    DirIsThere(cfg, s, t, uid, r);
    FailedWrite(cfg, s, s1, t, uid, g, [BeginPrepare(t, uid, [r])] + yes + yes, undone);
    assert s1.threads - {t} == s.threads;
  }

  lemma NoSpecPrepare(cfg: Config, s: State, t: int, uid: string, r: Request, undone: bool)
    requires t !in s.threads && IsInt64(r.dom) && cfg.groupOf(r.dom, uid) in s.fs
    requires AllocateResult(cfg.totals, s.used, r.dom, r.ways).Ok?
    ensures var run := OnePrepare(t, uid, r, NoSpec(undone));
      && Possible(cfg, s, run)
      && After(cfg, s, run) == s.(fs := GroupsAfterPrepare(s.fs, GrantFor(cfg, s, uid, r), NoSpec(undone)))
  {
    var g, yes := GrantFor(cfg, s, uid, r), [Advance(t, true)];
    var s1 := Goto(s.(used := s.used + GrantSlots(g)), t, WritingSchemata(uid, [], g));
    DirIsThere(cfg, s, t, uid, r);
    FailedSpec(cfg, s, s1, t, uid, g, [BeginPrepare(t, uid, [r])] + yes + yes, undone);
    assert s1.threads - {t} == s.threads;
  }

  lemma FailedPrepare(cfg: Config, s: State, t: int, uid: string, r: Request, o: Outcome)
    requires t !in s.threads && IsInt64(r.dom) && cfg.groupOf(r.dom, uid) in s.fs
    requires AllocateResult(cfg.totals, s.used, r.dom, r.ways).Ok? && !o.NoWays? && !o.Done?
    ensures var run := OnePrepare(t, uid, r, o);
      && Possible(cfg, s, run)
      && After(cfg, s, run) == s.(fs := GroupsAfterPrepare(s.fs, GrantFor(cfg, s, uid, r), o))
  {
    match o
    case NoDir => NoDirPrepare(cfg, s, t, uid, r);
    case NotWritten(undone) => NotWrittenPrepare(cfg, s, t, uid, r, undone);
    case NoSpec(undone) => NoSpecPrepare(cfg, s, t, uid, r, undone);
  }

  lemma NoDirEnd(cfg: Config, s0: State, s: State, t: int, uid: string, g: Grant, run: seq<Action>)
    requires t !in s.threads && GrantSlots(g) !! s.used && Possible(cfg, s0, run)
    requires After(cfg, s0, run) == Goto(s.(used := s.used + GrantSlots(g)), t, GivingBack(uid, g))
    ensures Possible(cfg, s0, run + [Advance(t, true)]) && After(cfg, s0, run + [Advance(t, true)]) == s
  {
    var s1 := After(cfg, s0, run);
    Extend(cfg, s0, run, Advance(t, true));
    assert s1.threads - {t} == s.threads;
    assert s1.used - GrantSlots(g) == s.used;
  }

  lemma FailedWrite(cfg: Config, s0: State, s: State, t: int, uid: string, g: Grant, run: seq<Action>, undone: bool)
    requires Possible(cfg, s0, run) && After(cfg, s0, run) == s
    requires t in s.threads && s.threads[t] == WritingSchemata(uid, [], g) && g.group in s.fs
    ensures var end := run + [Advance(t, false)] + [Advance(t, undone)] + [Advance(t, true)];
      && Possible(cfg, s0, end)
      && After(cfg, s0, end)
         == State(s.used - GrantSlots(g), s.table, if undone then s.fs - {g.group} else s.fs, s.threads - {t})
  {
    Fail(cfg, s0, s, t, run);
    var s1 := Goto(s, t, UndoingDir(uid, g));
    Undo(cfg, s0, s1, t, uid, g, run + [Advance(t, false)], undone);
    assert s1.threads - {t} == s.threads - {t};
  }

  lemma FailedSpec(cfg: Config, s0: State, s: State, t: int, uid: string, g: Grant, run: seq<Action>, undone: bool)
    requires Possible(cfg, s0, run) && After(cfg, s0, run) == s
    requires t in s.threads && s.threads[t] == WritingSchemata(uid, [], g) && g.group in s.fs
    ensures var end := run + [Advance(t, true)] + [Advance(t, false)] + [Advance(t, undone)] + [Advance(t, true)];
      && Possible(cfg, s0, end)
      && After(cfg, s0, end)
         == State(s.used - GrantSlots(g), s.table,
                  if undone then s.fs - {g.group} else s.fs[g.group := GrantEntries(g)], s.threads - {t})
  {
    var yes, no := [Advance(t, true)], [Advance(t, false)];
    Extend(cfg, s0, run, Advance(t, true));
    var s1 := Goto(s.(fs := s.fs[g.group := GrantEntries(g)]), t, WritingSpec(uid, [], g));
    assert After(cfg, s0, run + yes) == s1;
    Fail(cfg, s0, s1, t, run + yes);
    var s2 := Goto(s1, t, UndoingGroup(uid, g));
    Undo(cfg, s0, s2, t, uid, g, run + yes + no, undone);
    assert s2.threads - {t} == s.threads - {t};
    assert s.fs[g.group := GrantEntries(g)] - {g.group} == s.fs - {g.group};
  }

  /** A new grant never has the ways of a record. */
  lemma NewGrantDiffers(cfg: Config, s: State, uid: string, r: Request)
    requires WellFormed(cfg, s) && Isolated(s) && WaysFit(cfg.totals) && uid in s.table && s.table[uid].dom == r.dom
    requires AllocateResult(cfg.totals, s.used, r.dom, r.ways).Ok?
    ensures GrantFor(cfg, s, uid, r).mask != s.table[uid].mask
  {
    GrantIsFree(cfg.totals, s.used, r.dom, r.ways);
    assert GrantOk(cfg, s.table[uid], uid);
    GrantHasWays(cfg, s.table[uid], uid);
    assert Held(s, InTable(uid)) <= s.used;
  }

  /** An undisturbed second prepare in the recorded domain.  Success records the new
      grant; a failure leaves the record.  Afterwards the record is in its group exactly
      when the prepare succeeded, got no ways, could not make the directory, or could
      neither write the schemata nor remove the directory. */
  lemma SecondPrepareIff(cfg: Config, s: State, t: int, uid: string, r: Request, o: Outcome)
    requires WellFormed(cfg, s) && Isolated(s) && WaysFit(cfg.totals)
    requires t !in s.threads && uid in s.table && s.table[uid].dom == r.dom && Written(s.fs, s.table[uid])
    requires AllocateResult(cfg.totals, s.used, r.dom, r.ways).Err? <==> o.NoWays?
    ensures var run := OnePrepare(t, uid, r, o);
      && Possible(cfg, s, run)
      && var s' := After(cfg, s, run);
      && uid in s'.table
      && (o.Done? ==> s'.table[uid] == GrantFor(cfg, s, uid, r))
      && (!o.Done? ==> s'.table == s.table && s'.used == s.used)
      && (Written(s'.fs, s'.table[uid]) <==> o in {NoWays, NoDir, NotWritten(false), Done})
  {
    var record := s.table[uid];
    assert GrantOk(cfg, record, uid);
    if o.NoWays? {
      NoWaysPrepare(cfg, s, t, uid, r);
    } else {
      var g := GrantFor(cfg, s, uid, r);
      NewGrantDiffers(cfg, s, uid, r);
      assert GrantEntries(g)[0].mask != GrantEntries(record)[0].mask;
      if o.Done? { PrepareAlone(cfg, s, t, uid, r); } else { FailedPrepare(cfg, s, t, uid, r, o); }
    }
  }

  /** In particular, when the write fails and the directory can be removed, the rollback
      removes the group of the claim that stays on record. */
  lemma RePrepareLosesGroup(cfg: Config, s: State, t: int, uid: string, r: Request)
    requires t !in s.threads && IsInt64(r.dom) && uid in s.table
    requires s.table[uid].group == cfg.groupOf(r.dom, uid) && Written(s.fs, s.table[uid])
    requires AllocateResult(cfg.totals, s.used, r.dom, r.ways).Ok?
    ensures var run := OnePrepare(t, uid, r, NotWritten(true));
      && Possible(cfg, s, run)
      && var s' := After(cfg, s, run);
      && s'.table == s.table && s'.used == s.used
      && s'.fs == s.fs - {s.table[uid].group}
      && !Written(s'.fs, s'.table[uid])
  {
    FailedPrepare(cfg, s, t, uid, r, NotWritten(true));
  }

  /** Preparing a prepared claim again with success: the older ways stay used and
      nobody holds them any more. */
  lemma RePrepareLosesWays(cfg: Config, s: State, t: int, uid: string, r: Request)
    requires Isolated(s) && t !in s.threads && IsInt64(r.dom) && uid in s.table
    requires AllocateResult(cfg.totals, s.used, r.dom, r.ways).Ok?
    ensures Possible(cfg, s, FullPrepare(t, uid, r))
    ensures Held(s, InTable(uid)) <= Leaked(After(cfg, s, FullPrepare(t, uid, r)))
  {
    PrepareAlone(cfg, s, t, uid, r);
    GrantIsFree(cfg.totals, s.used, r.dom, r.ways);
    var s' := After(cfg, s, FullPrepare(t, uid, r));
    forall slot | slot in Held(s, InTable(uid)) ensures slot in Leaked(s') {
      assert Held(s, InTable(uid)) <= s.used;
      forall h ensures slot !in Held(s', h) {
        if h != InTable(uid) {
          assert Held(s', h) == Held(s, h) && Held(s, h) !! Held(s, InTable(uid));
        }
      }
    }
  }
}
