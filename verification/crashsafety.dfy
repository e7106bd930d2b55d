/** Isolation of the resctrl groups themselves, across crashes. */
module CrashSafety {
  import opened Slots
  import opened Schemata
  import opened Protocol
  import opened Isolation
  import opened Conservation

  /** A holder whose group may carry its ways: between writing the schemata and
      removing the group. */
  ghost predicate MayBeLive(s: State, h: Holder) {
    match h
    case InTable(uid) => uid in s.table
    case InThread(t) => t in s.threads && ThreadMayBeLive(s.threads[t])
  }

  predicate ThreadMayBeLive(th: Thread) {
    th.WritingSpec? || th.UndoingGroup? || th.Recording? || th.RemovingGroup?
  }

  ghost predicate InGroup(s: State, h: Holder, n: string) {
    MayBeLive(s, h) && Holding(s, h).Some? && Holding(s, h).value.group == n
  }

  /** Live groups share no way, hold only used ways, and meet no holder's ways but in
      that holder's own group. */
  ghost predicate GroupsIsolated(s: State) {
    && (forall n :: LiveSlots(s.fs, n) <= s.used)
    && (forall n, m :: n != m ==> LiveSlots(s.fs, n) !! LiveSlots(s.fs, m))
    && (forall h, n :: !InGroup(s, h, n) ==> Held(s, h) !! LiveSlots(s.fs, n))
  }

  ghost predicate GroupsDisjoint(fs: map<string, seq<Entry>>) {
    forall n, m :: n != m ==> LiveSlots(fs, n) !! LiveSlots(fs, m)
  }

  /** The environment's part: a removal of a written group leaves none of the
      group's ways behind, and a restart can read every group that holds ways. */
  ghost predicate Clean(s: State, a: Action) {
    match a
    case Advance(t, ok) =>
      t in s.threads && (s.threads[t].UndoingGroup? || s.threads[t].RemovingGroup?) && !ok ==>
        GrantSlots(s.threads[t].grant) !! LiveSlots(s.fs, s.threads[t].grant.group)
    case Crash(unreadable) => forall n | n in unreadable :: LiveSlots(s.fs, n) == {}
    case _ => true
  }

  // ----- one step at a time

  /** Everything about a holder other than x stays. */
  ghost predicate SameHolder(s: State, s': State, h: Holder) {
    Holding(s', h) == Holding(s, h) && (MayBeLive(s', h) <==> MayBeLive(s, h))
  }

  lemma OthersSame(s: State, s': State, t: int)
    requires s'.table == s.table
    requires forall u :: u != t ==> (u in s.threads <==> u in s'.threads)
    requires forall u :: u != t && u in s.threads ==> s.threads[u] == s'.threads[u]
    ensures forall h :: h != InThread(t) ==> SameHolder(s, s', h)
  {
  }

  lemma BeginKeepsGroups(cfg: Config, s: State, a: Action)
    requires GroupsIsolated(s) && Enabled(s, a) && (a.BeginPrepare? || a.BeginUnprepare?)
    ensures GroupsIsolated(Next(cfg, s, a))
  {
    var s' := Next(cfg, s, a);
    OthersSame(s, s', a.t);
    forall h, n | !InGroup(s', h, n) ensures Held(s', h) !! LiveSlots(s'.fs, n) {
      if h != InThread(a.t) { assert SameHolder(s, s', h) && !InGroup(s, h, n); }
    }
  }

  lemma AllocateKeepsGroups(cfg: Config, s: State, t: int, ok: bool)
    requires GroupsIsolated(s) && t in s.threads && s.threads[t].Allocating?
    ensures GroupsIsolated(Step(cfg, s, t, ok))
  {
    var s' := Step(cfg, s, t, ok);
    OthersSame(s, s', t);
    AllocationTouchesNoGroup(cfg, s, t, ok);
    forall h, n | !InGroup(s', h, n) ensures Held(s', h) !! LiveSlots(s'.fs, n) {
      if h != InThread(t) { assert SameHolder(s, s', h) && !InGroup(s, h, n); }
    }
  }

  lemma AllocationTouchesNoGroup(cfg: Config, s: State, t: int, ok: bool)
    requires t in s.threads && s.threads[t].Allocating?
    ensures var s' := Step(cfg, s, t, ok);
      s'.fs == s.fs && s'.table == s.table && s.used <= s'.used && Held(s', InThread(t)) !! s.used
  {
    var todo := s.threads[t].todo;
    if todo != [] && AllocateResult(cfg.totals, s.used, todo[0].dom, todo[0].ways).Ok? {
      GrantIsFree(cfg.totals, s.used, todo[0].dom, todo[0].ways);
    }
  }

  lemma RecordKeepsGroups(cfg: Config, s: State, t: int, ok: bool)
    requires GroupsIsolated(s) && t in s.threads && s.threads[t].Recording?
    ensures GroupsIsolated(Step(cfg, s, t, ok))
  {
    var s', th := Step(cfg, s, t, ok), s.threads[t];
    forall h, n | !InGroup(s', h, n) ensures Held(s', h) !! LiveSlots(s'.fs, n) {
      if h == InTable(th.uid) {
        assert !InGroup(s, InThread(t), n);
      } else if h != InThread(t) {
        assert SameHolder(s, s', h) && !InGroup(s, h, n);
      }
    }
  }

  lemma ForgetKeepsGroups(cfg: Config, s: State, t: int, ok: bool)
    requires GroupsIsolated(s) && t in s.threads && s.threads[t].Forgetting?
    ensures GroupsIsolated(Step(cfg, s, t, ok))
  {
    var s', uid := Step(cfg, s, t, ok), s.threads[t].uid;
    forall h, n | !InGroup(s', h, n) ensures Held(s', h) !! LiveSlots(s'.fs, n) {
      if h == InThread(t) {
        assert uid in s.table ==> !InGroup(s, InTable(uid), n);
      } else if h != InTable(uid) {
        assert SameHolder(s, s', h) && !InGroup(s, h, n);
      }
    }
  }

  lemma ReleaseKeepsGroups(s: State, t: int)
    requires GroupsIsolated(s) && Isolated(s) && t in s.threads
    requires s.threads[t].GivingBack? || s.threads[t].Freeing?
    ensures GroupsIsolated(ReleaseStep(s, t, s.threads[t].grant))
  {
    var s', x := ReleaseStep(s, t, s.threads[t].grant), InThread(t);
    OthersSame(s, s', t);
    forall n ensures LiveSlots(s'.fs, n) <= s'.used {
      assert !InGroup(s, x, n);
      assert Held(s, x) !! LiveSlots(s.fs, n);
    }
    forall h, n | !InGroup(s', h, n) ensures Held(s', h) !! LiveSlots(s'.fs, n) {
      if h != x { assert SameHolder(s, s', h) && !InGroup(s, h, n); }
    }
  }

  /** Creating the directory and writing the CDI file leave every group's ways alone. */
  lemma QuietFileKeepsGroups(s: State, t: int, ok: bool)
    requires GroupsIsolated(s) && t in s.threads
    requires s.threads[t].MakingDir? || s.threads[t].WritingSpec? || (s.threads[t].WritingSchemata? && !ok)
    ensures GroupsIsolated(FileStep(s, t, s.threads[t], ok))
  {
    var th := s.threads[t];
    var s' := FileStep(s, t, th, ok);
    OthersSame(s, s', t);
    WrittenEntries(th.grant);
    assert forall n :: LiveSlots(s'.fs, n) == LiveSlots(s.fs, n);
    assert ThreadMayBeLive(ThreadAfter(th, ok)) <==> ThreadMayBeLive(th);
    assert ThreadAfter(th, ok).grant == th.grant;
    assert SameHolder(s, s', InThread(t));
    forall h, n | !InGroup(s', h, n) ensures Held(s', h) !! LiveSlots(s'.fs, n) {
      assert SameHolder(s, s', h) && !InGroup(s, h, n);
    }
  }

  /** x writes its ways into group `name`, and nothing else changes. */
  ghost predicate Writes(s: State, s': State, x: Holder, name: string) {
    && s'.used == s.used
    && (forall n :: n != name ==> LiveSlots(s'.fs, n) == LiveSlots(s.fs, n))
    && LiveSlots(s'.fs, name) <= Held(s, x)
    && Held(s', x) == Held(s, x)
    && (forall n :: !InGroup(s, x, n))
    && (forall n :: n != name ==> !InGroup(s', x, n)) && InGroup(s', x, name)
    && (forall h :: h != x ==> SameHolder(s, s', h))
  }

  lemma WritesKeepGroups(s: State, s': State, x: Holder, name: string)
    requires GroupsIsolated(s) && Isolated(s) && Writes(s, s', x, name)
    ensures GroupsIsolated(s')
  {
    assert Held(s, x) <= s.used;
    assert forall n :: Held(s, x) !! LiveSlots(s.fs, n);
    forall n, m | n != m ensures LiveSlots(s'.fs, n) !! LiveSlots(s'.fs, m) {
      assert LiveSlots(s.fs, n) !! LiveSlots(s.fs, m);
    }
    forall h, n | !InGroup(s', h, n) ensures Held(s', h) !! LiveSlots(s'.fs, n) {
      if h != x {
        assert SameHolder(s, s', h) && !InGroup(s, h, n);
        assert Held(s, h) !! Held(s, x);
      }
    }
  }

  /** Writing the schemata puts the call's ways into its own group only. */
  lemma WriteKeepsGroups(s: State, t: int)
    requires GroupsIsolated(s) && Isolated(s) && t in s.threads && s.threads[t].WritingSchemata?
    ensures GroupsIsolated(FileStep(s, t, s.threads[t], true))
  {
    var th, x := s.threads[t], InThread(t);
    var s', g := FileStep(s, t, th, true), th.grant;
    OthersSame(s, s', t);
    WrittenEntries(g);
    assert s'.threads[t] == WritingSpec(th.uid, th.todo, g);
    WritesKeepGroups(s, s', x, g.group);
  }

  /** After trying to remove its group a call returns its ways, so the step keeps the
      groups isolated exactly when none of those ways stay behind in the group. */
  lemma RemoveKeepsGroupsIff(s: State, t: int, ok: bool)
    requires GroupsIsolated(s) && t in s.threads && RemovesDir(s.threads[t])
    ensures GroupsIsolated(FileStep(s, t, s.threads[t], ok)) <==> Clean(s, Advance(t, ok))
  {
    var th, x := s.threads[t], InThread(t);
    var s', g := FileStep(s, t, th, ok), th.grant;
    OthersSame(s, s', t);
    assert ThreadAfter(th, ok).grant == g && !ThreadMayBeLive(ThreadAfter(th, ok));
    assert Held(s', x) == GrantSlots(g) && Held(s, x) == GrantSlots(g);
    assert forall n :: !InGroup(s', x, n);
    assert forall n :: LiveSlots(s'.fs, n) == if ok && n == g.group then {} else LiveSlots(s.fs, n);
    if Clean(s, Advance(t, ok)) {
      forall h, n | !InGroup(s', h, n) ensures Held(s', h) !! LiveSlots(s'.fs, n) {
        if h != x {
          assert SameHolder(s, s', h) && !InGroup(s, h, n);
        } else if n != g.group {
          assert !InGroup(s, x, n);
        } else if th.UndoingDir? {
          assert !InGroup(s, x, n);
        }
      }
    } else {
      assert !InGroup(s', x, g.group);
    }
  }

  /** A restart keeps the groups isolated exactly when it can read every group that
      holds ways. */
  lemma CrashKeepsGroupsIff(s: State, unreadable: set<string>)
    requires GroupsIsolated(s)
    ensures GroupsIsolated(Boot(s.fs, unreadable)) <==> Clean(s, Crash(unreadable))
  {
    var s' := Boot(s.fs, unreadable);
    assert forall h :: Held(s', h) == {};
    if Clean(s, Crash(unreadable)) {
      forall n ensures LiveSlots(s.fs, n) <= s'.used { }
    } else {
      var n :| n in unreadable && LiveSlots(s.fs, n) != {};
      var slot :| slot in LiveSlots(s.fs, n);
      forall m | slot in LiveSlots(s.fs, m) ensures m == n { }
      assert slot !in s'.used;
      assert !(LiveSlots(s'.fs, n) <= s'.used);
    }
  }

  /** The exact condition, step by step: isolation of the live groups survives a step
      if and only if the environment plays its part in it. */
  lemma StepKeepsGroupsIff(cfg: Config, s: State, a: Action)
    requires GroupsIsolated(s) && Isolated(s) && Enabled(s, a)
    ensures GroupsIsolated(Next(cfg, s, a)) <==> Clean(s, a)
  {
    match a
    case Crash(unreadable) => CrashKeepsGroupsIff(s, unreadable);
    case Advance(t, ok) =>
      var th := s.threads[t];
      if th.Allocating? {
        AllocateKeepsGroups(cfg, s, t, ok);
      } else if th.Recording? {
        RecordKeepsGroups(cfg, s, t, ok);
      } else if th.Forgetting? {
        ForgetKeepsGroups(cfg, s, t, ok);
      } else if RemovesDir(th) {
        RemoveKeepsGroupsIff(s, t, ok);
      } else if th.WritingSchemata? && ok {
        WriteKeepsGroups(s, t);
      } else if OnFiles(th) {
        QuietFileKeepsGroups(s, t, ok);
      } else {
        ReleaseKeepsGroups(s, t);
      }
    case _ => BeginKeepsGroups(cfg, s, a);
  }

  // ----- whole runs

  /** The environment plays its part in every step of the run. */
  ghost predicate CleanRun(cfg: Config, s: State, run: seq<Action>)
    requires Possible(cfg, s, run)
    decreases |run|
  {
    |run| != 0 ==>
      var before := run[..|run| - 1];
      CleanRun(cfg, s, before) && Clean(After(cfg, s, before), run[|run| - 1])
  }

  /** While the environment plays its part the groups stay isolated. */
  lemma {:induction false} GroupsStayIsolated(cfg: Config, s: State, run: seq<Action>)
    requires GroupsIsolated(s) && Isolated(s) && Possible(cfg, s, run) && CleanRun(cfg, s, run)
    ensures GroupsIsolated(After(cfg, s, run)) && Isolated(After(cfg, s, run))
    decreases |run|
  {
    if |run| != 0 {
      var before, s1 := run[..|run| - 1], After(cfg, s, run[..|run| - 1]);
      GroupsStayIsolated(cfg, s, before);
      StepKeepsGroupsIff(cfg, s1, run[|run| - 1]);
      StepKeepsIsolation(cfg, s1, run[|run| - 1]);
    }
  }

  /** The groups are isolated after every prefix of the run. */
  ghost predicate IsolatedThroughout(cfg: Config, s: State, run: seq<Action>)
    requires Possible(cfg, s, run)
    decreases |run|
  {
    && GroupsIsolated(After(cfg, s, run))
    && (|run| != 0 ==> IsolatedThroughout(cfg, s, run[..|run| - 1]))
  }

  /** The exact condition over whole runs: a later restart may repair what a failure did,
      but the groups are isolated all along if and only if there was none. */
  lemma {:induction false} RunKeepsGroupsIff(cfg: Config, s: State, run: seq<Action>)
    requires GroupsIsolated(s) && Isolated(s) && Possible(cfg, s, run)
    ensures IsolatedThroughout(cfg, s, run) <==> CleanRun(cfg, s, run)
    decreases |run|
  {
    if |run| != 0 {
      var before := run[..|run| - 1];
      RunKeepsGroupsIff(cfg, s, before);
      if CleanRun(cfg, s, before) {
        GroupsStayIsolated(cfg, s, before);
        StepKeepsGroupsIff(cfg, After(cfg, s, before), run[|run| - 1]);
      }
    }
  }

  lemma BootIsolatesGroups(fs: map<string, seq<Entry>>)
    requires GroupsDisjoint(fs)
    ensures GroupsIsolated(Boot(fs, {}))
  {
    var s := Boot(fs, {});
    assert forall h :: Held(s, h) == {};
  }

  /** From any node whose groups are disjoint, over any number of crashes in runs in which
      the environment plays its part: live groups share no way, and no way of a live group
      is handed out. */
  lemma LiveGroupsStayDisjoint(cfg: Config, fs: map<string, seq<Entry>>, run: seq<Action>, dom: int, ways: int)
    requires GroupsDisjoint(fs) && Possible(cfg, Boot(fs, {}), run) && CleanRun(cfg, Boot(fs, {}), run)
    ensures var s := After(cfg, Boot(fs, {}), run);
            var r := AllocateResult(cfg.totals, s.used, dom, ways);
      && GroupsDisjoint(s.fs)
      && (r.Ok? ==> forall n :: MaskSlots(dom, r.value) !! LiveSlots(s.fs, n))
  {
    BootIsolatesGroups(fs);
    BootIsIsolated(fs, {});
    GroupsStayIsolated(cfg, Boot(fs, {}), run);
    var s := After(cfg, Boot(fs, {}), run);
    if AllocateResult(cfg.totals, s.used, dom, ways).Ok? {
      GrantIsFree(cfg.totals, s.used, dom, ways);
    }
  }
}
