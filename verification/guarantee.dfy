/** Exactly when a written group is safe: as long as every restart finds its ways. */
module Guarantee {
  import opened Words
  import opened Slots
  import opened Names
  import opened Protocol
  import opened Isolation
  import opened Conservation
  import opened CrashSafety
  import opened Reservation
  import opened Prepared
  import opened Scenarios
  import opened Sharing

  /** From here on no way of g is handed out before the next call for its claim, as long
      as restarts find the ways. */
  ghost predicate Safe(cfg: Config, s: State, uid: string, g: Grant) {
    forall future | Possible(cfg, s, future) && RunNotAbout(future, uid) && FindingRun(cfg, s, future, g) ::
      NotHandedOut(cfg, After(cfg, s, future), g)
  }

  lemma GuardedIsSafe(cfg: Config, s: State, uid: string, g: Grant)
    requires NamesOk(cfg) && WellFormed(cfg, s) && IsUUID(uid) && GrantOk(cfg, g, uid) && Guarded(s, uid, g)
    ensures Safe(cfg, s, uid, g)
  {
    forall future | Possible(cfg, s, future) && RunNotAbout(future, uid) && FindingRun(cfg, s, future, g)
      ensures NotHandedOut(cfg, After(cfg, s, future), g)
    {
      WrittenGroupKeepsItsWays(cfg, s, uid, g, future);
    }
  }

  lemma {:induction false} AllWellFinds(cfg: Config, s: State, run: seq<Action>, g: Grant)
    requires AllWell(run) && Possible(cfg, s, run)
    ensures FindingRun(cfg, s, run, g)
    decreases |run|
  {
    if |run| != 0 {
      assert run[|run| - 1] in run;
      AllWellFinds(cfg, s, run[..|run| - 1], g);
    }
  }

  lemma AnotherClaim(uid: string) returns (v: string)
    ensures IsUUID(v) && v != uid
  {
    SamplesDiffer();
    v := if uid != SampleUUID('0') then SampleUUID('0') else SampleUUID('1');
  }

  /** A way that the allocator thinks is free goes to another claim in some continuation
      without crashes and failures. */
  lemma FreeWayIsUnsafe(cfg: Config, s: State, t: int, uid: string, g: Grant, slot: Slot)
    requires NamesOk(cfg) && WaysFit(cfg.totals) && GrantOk(cfg, g, uid) && t !in s.threads
    requires slot in GrantSlots(g) && slot !in s.used
    ensures !Safe(cfg, s, uid, g)
  {
    var v := AnotherClaim(uid);
    GrantInRange(cfg, g, uid);
    assert slot == Slot(slot.dom, slot.way);
    var run := FreeWayIsGranted(cfg, s, t, v, slot.dom, slot.way);
    AllWellFinds(cfg, s, run, g);
    var s' := After(cfg, s, run);
    assert slot in MaskSlots(slot.dom, Mask(slot.way, 1));
    assert AllocateResult(cfg.totals, s'.used, slot.dom, 1).Ok?;
    assert !NotHandedOut(cfg, s', g);
  }

  /** One step for others, or a crash: afterwards the ways are safe if and only if a
      restart found them. */
  lemma StepSafeIff(cfg: Config, s: State, a: Action, uid: string, g: Grant)
    requires NamesOk(cfg) && WaysFit(cfg.totals) && WellFormed(cfg, s) && Enabled(s, a) && NotAbout(a, uid)
    requires IsUUID(uid) && GrantOk(cfg, g, uid) && Guarded(s, uid, g)
    ensures Safe(cfg, Next(cfg, s, a), uid, g) <==> Finds(s, a, g)
  {
    if Finds(s, a, g) {
      StepKeepsGuarded(cfg, s, a, uid, g);
      StepKeepsForm(cfg, s, a);
      GuardedIsSafe(cfg, Next(cfg, s, a), uid, g);
    } else {
      var slot :| slot in GrantSlots(g) && slot !in Rebuilt(s.fs, a.unreadable);
      FreeWayIsUnsafe(cfg, Boot(s.fs, a.unreadable), 0, uid, g, slot);
    }
  }

  /** The ways are safe after every prefix of the run. */
  ghost predicate SafeRun(cfg: Config, s: State, run: seq<Action>, uid: string, g: Grant)
    requires Possible(cfg, s, run)
    decreases |run|
  {
    && Safe(cfg, After(cfg, s, run), uid, g)
    && (|run| != 0 ==> SafeRun(cfg, s, run[..|run| - 1], uid, g))
  }

  /** Over whole runs of calls for other claims and crashes, however their files fail: the
      ways of a written group are never handed out, now or later, if and only if every
      restart found them. */
  lemma {:induction false} RunSafeIff(cfg: Config, s: State, run: seq<Action>, uid: string, g: Grant)
    requires NamesOk(cfg) && WaysFit(cfg.totals) && WellFormed(cfg, s)
    requires IsUUID(uid) && GrantOk(cfg, g, uid) && Guarded(s, uid, g)
    requires Possible(cfg, s, run) && RunNotAbout(run, uid)
    ensures SafeRun(cfg, s, run, uid, g) <==> FindingRun(cfg, s, run, g)
    decreases |run|
  {
    if |run| == 0 {
      GuardedIsSafe(cfg, s, uid, g);
    } else {
      var before, a := run[..|run| - 1], run[|run| - 1];
      RunSafeIff(cfg, s, before, uid, g);
      if FindingRun(cfg, s, before, g) {
        StaysGuarded(cfg, s, before, uid, g);
        assert a in run;
        StepSafeIff(cfg, After(cfg, s, before), a, uid, g);
      }
    }
  }

  /** While live groups are disjoint, a restart finds the ways if and only if it can read
      the claim's own group; otherwise another group may vouch for them. */
  lemma FindsIffReadable(cfg: Config, s: State, uid: string, g: Grant, unreadable: set<string>)
    requires NamesOk(cfg) && WaysFit(cfg.totals) && GrantOk(cfg, g, uid)
    requires Written(s.fs, g) && GroupsDisjoint(s.fs)
    ensures Finds(s, Crash(unreadable), g) <==> g.group !in unreadable
  {
    WrittenIsLive(s, g);
    if g.group !in unreadable {
      ReadableIsFound(s, g, unreadable);
    } else {
      GrantHasWays(cfg, g, uid);
      var slot :| slot in GrantSlots(g);
      assert slot in LiveSlots(s.fs, g.group);
      forall n | slot in LiveSlots(s.fs, n) ensures n == g.group { }
      assert slot !in Rebuilt(s.fs, unreadable);
    }
  }

  // ----- an unprepare after several domains

  /** The record names one domain only: an undisturbed unprepare leaves the group of any
      other domain of the claim written, its ways used, and nobody holding them. */
  lemma UnprepareLeavesOtherDomains(cfg: Config, s: State, t: int, uid: string, g: Grant)
    requires NamesOk(cfg) && WellFormed(cfg, s) && IsUUID(uid) && t !in s.threads
    requires uid in s.table && s.table[uid].group in s.fs && s.table[uid].dom != g.dom
    requires GrantOk(cfg, g, uid) && Written(s.fs, g) && Exclusive(s, uid, g)
    ensures var run := FullUnprepare(t, uid);
      && Possible(cfg, s, run)
      && var s' := After(cfg, s, run);
      && uid !in s'.table && Written(s'.fs, g) && GrantSlots(g) <= Leaked(s')
  {
    assert GrantOk(cfg, s.table[uid], uid);
    UnprepareAlone(cfg, s, t, uid);
    LeftBehind(s, After(cfg, s, FullUnprepare(t, uid)), uid, g);
  }

  lemma LeftBehind(s: State, s': State, uid: string, g: Grant)
    requires uid in s.table && s.table[uid].dom != g.dom && s.table[uid].group != g.group
    requires Written(s.fs, g) && Exclusive(s, uid, g)
    requires var record := s.table[uid];
      s' == State(s.used - GrantSlots(record), s.table - {uid}, s.fs - {record.group}, s.threads)
    ensures Written(s'.fs, g) && GrantSlots(g) <= Leaked(s')
  {
    OtherDomain(s.table[uid], g);
    assert forall h :: h != InTable(uid) ==> Held(s', h) == Held(s, h);
    assert Held(s', InTable(uid)) == {};
  }

  lemma OtherDomain(a: Grant, b: Grant)
    requires a.dom != b.dom
    ensures GrantSlots(a) !! GrantSlots(b)
  {
  }

  /** So after a successful prepare for several domains, unpreparing the claim leaks every
      domain but the last. */
  lemma UnprepareAfterSeveralDomains(cfg: Config, s: State, t: int, uid: string, reqs: seq<Request>,
                                     meanwhile: seq<Action>, j: nat, u: int) returns (g: Grant)
    requires NamesOk(cfg) && WellFormed(cfg, s) && Isolated(s) && OneCallEach(s)
    requires Succeeds(cfg, s, t, uid, reqs, meanwhile)
    requires LastOf(reqs, |reqs|, j) && reqs[j].dom != reqs[|reqs| - 1].dom
    requires u !in AfterSuccess(cfg, s, t, uid, reqs, meanwhile).threads
    ensures g.dom == reqs[j].dom && g.ways == reqs[j].ways && g.group == cfg.groupOf(g.dom, uid)
    ensures var s1 := AfterSuccess(cfg, s, t, uid, reqs, meanwhile);
      && Possible(cfg, s1, FullUnprepare(u, uid))
      && var s' := After(cfg, s1, FullUnprepare(u, uid));
      && uid !in s'.table && Written(s'.fs, g) && GrantSlots(g) <= Leaked(s')
  {
    var s1 := AfterSuccess(cfg, s, t, uid, reqs, meanwhile);
    SuccessfulPrepareIsWritten(cfg, s, t, uid, reqs, meanwhile);
    SuccessKeepsInvariants(cfg, s, t, uid, reqs, meanwhile);
    g :| GrantOk(cfg, g, uid) && g.dom == reqs[j].dom && g.ways == reqs[j].ways
      && Written(s1.fs, g) && Exclusive(s1, uid, g);
    UnprepareLeavesOtherDomains(cfg, s1, u, uid, g);
  }
}
