/** What a restarted driver knows: the ways of the groups it could read, and no claim. */
module Restart {
  import opened Results
  import opened Slots
  import opened GoText
  import opened Schemata
  import opened Protocol
  import opened Isolation
  import opened Conservation
  import opened Reservation
  import opened Scenarios
  import opened Sharing

  // ----- which claims are on record

  /** The last thing the calls of the run did to the claim's record since the last
      restart was to write it. */
  ghost predicate RecordedSinceRestart(cfg: Config, s: State, run: seq<Action>, uid: string)
    requires Possible(cfg, s, run)
    decreases |run|
  {
    |run| != 0 &&
      var before, a := run[..|run| - 1], run[|run| - 1];
      var s1 := After(cfg, s, before);
      if a.Crash? then false
      else if a.Advance? && s1.threads[a.t].Recording? && s1.threads[a.t].uid == uid then true
      else if a.Advance? && s1.threads[a.t].Forgetting? && s1.threads[a.t].uid == uid then false
      else RecordedSinceRestart(cfg, s, before, uid)
  }

  lemma TableAfter(cfg: Config, s: State, a: Action, uid: string)
    requires Enabled(s, a)
    ensures var s' := Next(cfg, s, a);
      if a.Crash? then s'.table == map[]
      else if a.Advance? && s.threads[a.t].Recording? && s.threads[a.t].uid == uid then uid in s'.table
      else if a.Advance? && s.threads[a.t].Forgetting? && s.threads[a.t].uid == uid then uid !in s'.table
      else uid in s'.table <==> uid in s.table
  {
  }

  lemma {:induction false} OnRecordIff(cfg: Config, s: State, run: seq<Action>, uid: string)
    requires s.table == map[] && Possible(cfg, s, run)
    ensures uid in After(cfg, s, run).table <==> RecordedSinceRestart(cfg, s, run, uid)
    decreases |run|
  {
    if |run| != 0 {
      OnRecordIff(cfg, s, run[..|run| - 1], uid);
      TableAfter(cfg, After(cfg, s, run[..|run| - 1]), run[|run| - 1], uid);
    }
  }

  // ----- an undisturbed unprepare

  /** The call, whose removal succeeds or not. */
  function Unprepare(t: int, uid: string, recorded: bool, removed: bool): seq<Action> {
    if recorded then [BeginUnprepare(t, uid)] + [Advance(t, true)] + [Advance(t, removed)] + [Advance(t, true)]
    else [BeginUnprepare(t, uid)] + [Advance(t, true)]
  }

  /** Without a record the call changes nothing. */
  lemma UnrecordedUnprepare(cfg: Config, s: State, t: int, uid: string)
    requires t !in s.threads && uid !in s.table
    ensures var run := [BeginUnprepare(t, uid)] + [Advance(t, true)];
      Possible(cfg, s, run) && After(cfg, s, run) == s
  {
    var begin := BeginUnprepare(t, uid);
    Extend(cfg, s, [], begin);
    assert [] + [begin] == [begin];
    var s1 := Goto(s, t, Forgetting(uid));
    assert After(cfg, s, [begin]) == s1;
    Extend(cfg, s, [begin], Advance(t, true));
    assert s1.threads - {t} == s.threads;
  }

  /** A grant of a running driver has ways, all of them used. */
  lemma RecordedWaysAreUsed(cfg: Config, s: State, uid: string)
    requires WellFormed(cfg, s) && Isolated(s) && WaysFit(cfg.totals) && uid in s.table
    ensures GrantSlots(s.table[uid]) <= s.used && GrantSlots(s.table[uid]) != {}
  {
    var g := s.table[uid];
    assert GrantOk(cfg, g, uid);
    GrantHasWays(cfg, g, uid);
    assert Held(s, InTable(uid)) <= s.used;
  }

  /** In every state a driver can reach, over any number of crashes, an undisturbed
      unprepare frees ways if and only if the claim was recorded since the last
      restart; then it frees exactly the recorded grant, removed group or not. */
  lemma UnprepareFreesIff(cfg: Config, fs: map<string, seq<Entry>>, unreadable: set<string>, run: seq<Action>,
                          t: int, uid: string, removed: bool)
    requires WaysFit(cfg.totals) && Possible(cfg, Boot(fs, unreadable), run)
    requires var s := After(cfg, Boot(fs, unreadable), run);
      t !in s.threads && (removed && uid in s.table ==> s.table[uid].group in s.fs)
    ensures var s := After(cfg, Boot(fs, unreadable), run);
            var recorded := RecordedSinceRestart(cfg, Boot(fs, unreadable), run, uid);
            var call := Unprepare(t, uid, recorded, removed);
      && (recorded <==> uid in s.table)
      && Possible(cfg, s, call)
      && var s' := After(cfg, s, call);
      && (s'.used != s.used <==> recorded)
      && s'.used == s.used - (if recorded then GrantSlots(s.table[uid]) else {})
      && (!recorded ==> s' == s)
  {
    var start := Boot(fs, unreadable);
    var s := After(cfg, start, run);
    OnRecordIff(cfg, start, run, uid);
    if uid in s.table {
      BootIsIsolated(fs, unreadable);
      StaysIsolated(cfg, start, run);
      AlwaysWellFormed(cfg, start, run);
      RecordedWaysAreUsed(cfg, s, uid);
      if removed { UnprepareAlone(cfg, s, t, uid); } else { FailedRemovalFreesLiveWays(cfg, s, t, uid); }
    } else {
      UnrecordedUnprepare(cfg, s, t, uid);
    }
  }

  // ----- a claim from before the crash

  lemma CrashNow(cfg: Config, s: State, unreadable: set<string>)
    ensures Possible(cfg, s, [Crash(unreadable)]) && After(cfg, s, [Crash(unreadable)]) == Boot(s.fs, unreadable)
  {
    OneAction(cfg, s, Crash(unreadable));
  }

  /** Prepare, crash, unprepare: the group is still there and its ways are still used,
      with nobody left who could return them. */
  lemma UnprepareAfterCrashFreesNothing(cfg: Config, s: State, t: int, uid: string, r: Request)
    requires t !in s.threads && IsInt64(r.dom) && Ours(cfg.groupOf(r.dom, uid))
    requires AllocateResult(cfg.totals, s.used, r.dom, r.ways).Ok?
    ensures var g := GrantFor(cfg, s, uid, r);
            var run := FullPrepare(t, uid, r) + [Crash({})] + Unprepare(t, uid, false, true);
      && Possible(cfg, s, run)
      && var s' := After(cfg, s, run);
      && Written(s'.fs, g) && GrantSlots(g) <= s'.used && GrantSlots(g) <= Leaked(s')
      && s'.table == map[] && s'.threads == map[]
  {
    var g, call := GrantFor(cfg, s, uid, r), FullPrepare(t, uid, r);
    PrepareAlone(cfg, s, t, uid, r);
    var s1 := After(cfg, s, call);
    CrashNow(cfg, s1, {});
    Append(cfg, s, call, [Crash({})]);
    var s2 := Boot(s1.fs, {});
    UnrecordedUnprepare(cfg, s2, t, uid);
    Append(cfg, s, call + [Crash({})], Unprepare(t, uid, false, true));
    BootLeaksAll(s1.fs, {});
    WrittenGroupIsRebuilt(s1.fs, g);
  }

  lemma WrittenGroupIsRebuilt(fs: map<string, seq<Entry>>, g: Grant)
    requires Written(fs, g) && Ours(g.group)
    ensures GrantSlots(g) <= Rebuilt(fs, {})
  {
    WrittenEntries(g);
    assert LiveSlots(fs, g.group) == GrantSlots(g);
  }
}
