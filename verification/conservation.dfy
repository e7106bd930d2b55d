/** Conservation of ways over whole runs, and what it says about allocation. */
module Conservation {
  import opened Words
  import opened Windows
  import opened Slots
  import opened GoText
  import opened Schemata
  import opened Protocol
  import opened Isolation

  // ----- grants are what the allocator made them

  /** A contiguous run inside the domain, for the claim's group of that domain. */
  ghost predicate GrantOk(cfg: Config, g: Grant, uid: string) {
    && g.dom in cfg.totals && IsInt64(g.dom) && 1 <= g.ways
    && g.group == cfg.groupOf(g.dom, uid)
    && exists start: nat :: start + g.ways <= cfg.totals[g.dom] && g.mask == Mask(start, g.ways)
  }

  ghost predicate ThreadOk(cfg: Config, th: Thread) {
    && (ThreadGrant(th).Some? ==> GrantOk(cfg, th.grant, th.uid))
    && (th.Allocating? || th.MakingDir? || th.WritingSchemata? || th.WritingSpec? || th.Recording? ==>
          forall r | r in th.todo :: IsInt64(r.dom))
  }

  ghost predicate WellFormed(cfg: Config, s: State) {
    && (forall uid | uid in s.table :: GrantOk(cfg, s.table[uid], uid))
    && (forall t | t in s.threads :: ThreadOk(cfg, s.threads[t]))
  }

  lemma AllocateKeepsForm(cfg: Config, s: State, t: int, ok: bool)
    requires WellFormed(cfg, s) && t in s.threads && s.threads[t].Allocating?
    ensures WellFormed(cfg, Step(cfg, s, t, ok))
  {
    var th := s.threads[t];
    if th.todo != [] {
      var r := th.todo[0];
      assert r in th.todo;
      if AllocateResult(cfg.totals, s.used, r.dom, r.ways).Ok? {
        GrantIsFree(cfg.totals, s.used, r.dom, r.ways);
        assert ThreadOk(cfg, Step(cfg, s, t, ok).threads[t]);
      }
    }
  }

  lemma FormKept(cfg: Config, s: State, s': State, t: int)
    requires WellFormed(cfg, s)
    requires forall uid | uid in s'.table :: GrantOk(cfg, s'.table[uid], uid)
    requires forall u | u in s'.threads && u != t :: u in s.threads && s.threads[u] == s'.threads[u]
    requires t in s'.threads ==> ThreadOk(cfg, s'.threads[t])
    ensures WellFormed(cfg, s')
  {
  }

  lemma FileStepKeepsForm(cfg: Config, s: State, t: int, ok: bool)
    requires WellFormed(cfg, s) && t in s.threads && OnFiles(s.threads[t])
    ensures WellFormed(cfg, FileStep(s, t, s.threads[t], ok))
  {
    assert ThreadOk(cfg, s.threads[t]);
    assert ThreadOk(cfg, ThreadAfter(s.threads[t], ok));
    FormKept(cfg, s, FileStep(s, t, s.threads[t], ok), t);
  }

  lemma StepKeepsForm(cfg: Config, s: State, a: Action)
    requires WellFormed(cfg, s) && Enabled(s, a)
    ensures WellFormed(cfg, Next(cfg, s, a))
  {
    var s' := Next(cfg, s, a);
    if a.BeginPrepare? || a.BeginUnprepare? {
      FormKept(cfg, s, s', a.t);
    } else if a.Advance? {
      var th := s.threads[a.t];
      assert ThreadOk(cfg, th);
      if th.Allocating? {
        AllocateKeepsForm(cfg, s, a.t, a.ok);
      } else if OnFiles(th) {
        FileStepKeepsForm(cfg, s, a.t, a.ok);
      } else {
        FormKept(cfg, s, s', a.t);
      }
    }
  }

  lemma {:induction false} AlwaysWellFormed(cfg: Config, s: State, run: seq<Action>)
    requires WellFormed(cfg, s) && Possible(cfg, s, run)
    ensures WellFormed(cfg, After(cfg, s, run))
    decreases |run|
  {
    if |run| != 0 {
      AlwaysWellFormed(cfg, s, run[..|run| - 1]);
      StepKeepsForm(cfg, After(cfg, s, run[..|run| - 1]), run[|run| - 1]);
    }
  }

  // ----- used ways stay inside their domains

  ghost predicate SlotsInRange(totals: map<int, int>, slots: set<Slot>) {
    forall s | s in slots :: s.dom in totals && s.way < totals[s.dom]
  }

  /** Nothing is used, or written to a live group, outside the known domains. */
  ghost predicate InRange(cfg: Config, s: State) {
    SlotsInRange(cfg.totals, s.used) && forall n :: SlotsInRange(cfg.totals, LiveSlots(s.fs, n))
  }

  lemma GrantInRange(cfg: Config, g: Grant, uid: string)
    requires GrantOk(cfg, g, uid)
    ensures SlotsInRange(cfg.totals, GrantSlots(g))
  {
    var start: nat :| start + g.ways <= cfg.totals[g.dom] && g.mask == Mask(start, g.ways);
    WaysMask(start, g.ways);
    forall s | s in GrantSlots(g) ensures s.dom in cfg.totals && s.way < cfg.totals[s.dom] {
      assert Within(start, g.ways, s.way);
    }
  }

  lemma WrittenEntries(g: Grant)
    ensures EntrySlots(GrantEntries(g)) == GrantSlots(g)
    ensures EntrySlots([]) == {}
  {
    OneEntry(Entry(g.dom, g.mask));
  }

  /** What a step can do to the live group n. */
  ghost predicate LiveEffect(cfg: Config, s: State, a: Action, n: string)
    requires Enabled(s, a)
  {
    var live, live' := LiveSlots(s.fs, n), LiveSlots(Next(cfg, s, a).fs, n);
    if a.Advance? && a.ok && s.threads[a.t].WritingSchemata? && s.threads[a.t].grant.group == n
    then live' == if Ours(n) then GrantSlots(s.threads[a.t].grant) else {}
    else if a.Advance? && a.ok && RemovesDir(s.threads[a.t]) && s.threads[a.t].grant.group == n then live' == {}
    else live' == live
  }

  lemma LiveSlotsAfter(cfg: Config, s: State, a: Action, n: string)
    requires Enabled(s, a)
    ensures LiveEffect(cfg, s, a, n)
  {
    if a.Advance? {
      var th := s.threads[a.t];
      if OnFiles(th) { WrittenEntries(th.grant); }
    }
  }

  lemma RebuiltInRange(cfg: Config, fs: map<string, seq<Entry>>, unreadable: set<string>)
    requires forall n :: SlotsInRange(cfg.totals, LiveSlots(fs, n))
    ensures SlotsInRange(cfg.totals, Rebuilt(fs, unreadable))
  {
  }

  lemma StepKeepsRange(cfg: Config, s: State, a: Action)
    requires InRange(cfg, s) && WellFormed(cfg, s) && Enabled(s, a)
    ensures InRange(cfg, Next(cfg, s, a))
  {
    var s' := Next(cfg, s, a);
    forall n ensures SlotsInRange(cfg.totals, LiveSlots(s'.fs, n)) {
      LiveSlotsAfter(cfg, s, a, n);
      if a.Advance? && s.threads[a.t].WritingSchemata? {
        assert ThreadOk(cfg, s.threads[a.t]);
        GrantInRange(cfg, s.threads[a.t].grant, s.threads[a.t].uid);
      }
    }
    if a.Crash? {
      RebuiltInRange(cfg, s.fs, a.unreadable);
    } else {
      StepEffect(cfg, s, a);
      if a.Advance? && s.threads[a.t].Allocating? && a.t in s'.threads {
        StepKeepsForm(cfg, s, a);
        assert ThreadOk(cfg, s'.threads[a.t]);
        GrantInRange(cfg, s'.threads[a.t].grant, s'.threads[a.t].uid);
      }
    }
  }

  lemma {:induction false} AlwaysInRange(cfg: Config, s: State, run: seq<Action>)
    requires InRange(cfg, s) && WellFormed(cfg, s) && Possible(cfg, s, run)
    ensures InRange(cfg, After(cfg, s, run))
    decreases |run|
  {
    if |run| != 0 {
      var before := run[..|run| - 1];
      AlwaysInRange(cfg, s, before);
      AlwaysWellFormed(cfg, s, before);
      StepKeepsRange(cfg, After(cfg, s, before), run[|run| - 1]);
    }
  }

  // ----- the books balance

  lemma UsedInUnion(a: set<Slot>, b: set<Slot>, dom: int)
    requires a !! b
    ensures UsedIn(a + b, dom) == UsedIn(a, dom) + UsedIn(b, dom)
    ensures UsedIn(a, dom) !! UsedIn(b, dom)
  {
    forall i: nat ensures
      && (i in UsedIn(a + b, dom) <==> i in UsedIn(a, dom) + UsedIn(b, dom))
      && !(i in UsedIn(a, dom) && i in UsedIn(b, dom))
    {
      UsedInMember(a, dom, i);
      UsedInMember(b, dom, i);
      UsedInMember(a + b, dom, i);
    }
  }

  /** In every reachable state the free ways, the ways held by records and calls in
      flight, and the lost ways of a domain add up to its total. */
  lemma Balance(cfg: Config, s: State, dom: int)
    requires InRange(cfg, s) && dom in cfg.totals && 0 <= cfg.totals[dom]
    ensures FreeBelow(UsedIn(s.used, dom), cfg.totals[dom])
            + |UsedIn(AllHeld(s), dom)| + |UsedIn(Leaked(s), dom)| == cfg.totals[dom]
  {
    var used, n: nat := UsedIn(s.used, dom), cfg.totals[dom];
    UsedSplits(s);
    UsedInUnion(AllHeld(s), Leaked(s), dom);
    FreePlusUsed(used, n);
    forall i | i in used ensures i in Prefix(n) {
      UsedInMember(s.used, dom, i);
      assert Below(n, i);
    }
    assert used * Prefix(n) == used;
  }

  /** The ways lost along a run: older grants overwritten by newer ones. */
  ghost function Lost(cfg: Config, s: State, run: seq<Action>): set<Slot>
    requires Possible(cfg, s, run)
    decreases |run|
  {
    if |run| == 0 then {} else
      var before := run[..|run| - 1];
      Lost(cfg, s, before) + Overwritten(After(cfg, s, before), run[|run| - 1])
  }

  predicate CrashFree(run: seq<Action>) {
    forall a | a in run :: !a.Crash?
  }

  /** Whole-run accounting: between crashes the unheld used ways grow by exactly the
      overwritten grants, so nothing is lost if and only if nothing is overwritten. */
  lemma {:induction false} RunAccounting(cfg: Config, s: State, run: seq<Action>)
    requires Isolated(s) && Possible(cfg, s, run) && CrashFree(run)
    ensures Isolated(After(cfg, s, run))
    ensures Leaked(After(cfg, s, run)) == Leaked(s) + Lost(cfg, s, run)
    ensures Leaked(s) !! Lost(cfg, s, run)
    decreases |run|
  {
    if |run| != 0 {
      var before := run[..|run| - 1];
      RunAccounting(cfg, s, before);
      StepKeepsIsolation(cfg, After(cfg, s, before), run[|run| - 1]);
      StepAccounting(cfg, After(cfg, s, before), run[|run| - 1]);
    }
  }

  /** No call in flight and nothing recorded. */
  ghost predicate AtRest(s: State) {
    s.threads == map[] && s.table == map[]
  }

  lemma BootLeaksAll(fs: map<string, seq<Entry>>, unreadable: set<string>)
    ensures Leaked(Boot(fs, unreadable)) == Rebuilt(fs, unreadable)
  {
    assert forall h :: Held(Boot(fs, unreadable), h) == {};
  }

  /** Until the next crash the ways that nobody holds are exactly the recovered ones and
      the overwritten ones: no call ever gives a recovered way back. */
  lemma RecoveredStaysUsed(cfg: Config, fs: map<string, seq<Entry>>, unreadable: set<string>, run: seq<Action>)
    requires Possible(cfg, Boot(fs, unreadable), run) && CrashFree(run)
    ensures var s := After(cfg, Boot(fs, unreadable), run);
            var lost := Lost(cfg, Boot(fs, unreadable), run);
      && Leaked(s) == Rebuilt(fs, unreadable) + lost
      && Rebuilt(fs, unreadable) <= s.used && Rebuilt(fs, unreadable) !! lost
  {
    BootIsIsolated(fs, unreadable);
    BootLeaksAll(fs, unreadable);
    RunAccounting(cfg, Boot(fs, unreadable), run);
  }

  /** The surviving groups belong to known domains. */
  ghost predicate GroupsInRange(cfg: Config, fs: map<string, seq<Entry>>) {
    forall n :: SlotsInRange(cfg.totals, LiveSlots(fs, n))
  }

  /** Conservation since a restart: free ways, held ways, recovered ways and overwritten
      ways of a domain always add up to its total; with every claim unprepared exactly
      the recovered and the overwritten ways are still used. */
  lemma NothingLost(cfg: Config, fs: map<string, seq<Entry>>, unreadable: set<string>, run: seq<Action>, dom: int)
    requires Possible(cfg, Boot(fs, unreadable), run) && CrashFree(run) && GroupsInRange(cfg, fs)
    requires dom in cfg.totals && 0 <= cfg.totals[dom]
    ensures var s := After(cfg, Boot(fs, unreadable), run);
            var rebuilt, lost := Rebuilt(fs, unreadable), Lost(cfg, Boot(fs, unreadable), run);
      && FreeBelow(UsedIn(s.used, dom), cfg.totals[dom]) + |UsedIn(AllHeld(s), dom)|
         + |UsedIn(rebuilt, dom)| + |UsedIn(lost, dom)| == cfg.totals[dom]
      && (AtRest(s) ==> s.used == rebuilt + lost)
  {
    var start := Boot(fs, unreadable);
    RebuiltInRange(cfg, fs, unreadable);
    AlwaysInRange(cfg, start, run);
    RecoveredStaysUsed(cfg, fs, unreadable, run);
    var s := After(cfg, start, run);
    Balance(cfg, s, dom);
    UsedInUnion(Rebuilt(fs, unreadable), Lost(cfg, start, run), dom);
    if AtRest(s) { RestLeaks(s); }
  }

  lemma RestLeaks(s: State)
    requires AtRest(s)
    ensures s.used == Leaked(s)
  {
    assert forall h :: Held(s, h) == {};
  }

  /** Between restarts free, held and recovered ways add up in every domain exactly when
      no record was overwritten with ways in it. */
  lemma ConservedIff(cfg: Config, fs: map<string, seq<Entry>>, unreadable: set<string>, run: seq<Action>)
    requires Possible(cfg, Boot(fs, unreadable), run) && CrashFree(run) && GroupsInRange(cfg, fs)
    requires forall d | d in cfg.totals :: 0 <= cfg.totals[d]
    ensures var s := After(cfg, Boot(fs, unreadable), run);
      (forall d | d in cfg.totals ::
         FreeBelow(UsedIn(s.used, d), cfg.totals[d]) + |UsedIn(AllHeld(s), d)| + |UsedIn(Rebuilt(fs, unreadable), d)|
         == cfg.totals[d])
      <==> Lost(cfg, Boot(fs, unreadable), run) == {}
  {
    var start := Boot(fs, unreadable);
    var s, lost := After(cfg, start, run), Lost(cfg, start, run);
    forall d | d in cfg.totals
      ensures FreeBelow(UsedIn(s.used, d), cfg.totals[d]) + |UsedIn(AllHeld(s), d)|
              + |UsedIn(Rebuilt(fs, unreadable), d)| + |UsedIn(lost, d)| == cfg.totals[d]
    {
      NothingLost(cfg, fs, unreadable, run, d);
    }
    RebuiltInRange(cfg, fs, unreadable);
    AlwaysInRange(cfg, start, run);
    RecoveredStaysUsed(cfg, fs, unreadable, run);
    assert lost <= s.used;
    EmptyEverywhere(cfg.totals, lost);
  }

  lemma EmptyEverywhere(totals: map<int, int>, slots: set<Slot>)
    requires SlotsInRange(totals, slots)
    ensures slots == {} <==> forall d | d in totals :: |UsedIn(slots, d)| == 0
  {
    forall s | s in slots ensures s.dom in totals && |UsedIn(slots, s.dom)| != 0 {
      UsedInMember(slots, s.dom, s.way);
      assert s == Slot(s.dom, s.way);
    }
    if slots == {} {
      forall d | d in totals ensures |UsedIn(slots, d)| == 0 { assert UsedIn(slots, d) == {}; }
    } else {
      var s :| s in slots;
      assert s.dom in totals;
    }
  }

  // ----- claims with one device, prepared once, lose nothing

  /** Preparing a claim that is not prepared, with at most one device. */
  ghost predicate SinglePrepare(s: State, a: Action) {
    a.BeginPrepare? ==>
      && |a.reqs| <= 1
      && a.uid !in s.table
      && forall t | t in s.threads && Claiming(s.threads[t]) :: s.threads[t].uid != a.uid
  }

  /** A prepare that may still record a grant. */
  predicate Claiming(th: Thread) {
    (th.Allocating? && th.todo != []) || th.MakingDir? || th.WritingSchemata? || th.WritingSpec? || th.Recording?
  }

  predicate LastDevice(th: Thread) {
    && (th.Allocating? ==> |th.todo| <= 1)
    && (th.MakingDir? || th.WritingSchemata? || th.WritingSpec? || th.Recording? ==> th.todo == [])
  }

  ghost predicate Single(s: State) {
    && (forall t | t in s.threads :: LastDevice(s.threads[t]))
    && (forall t | t in s.threads && Claiming(s.threads[t]) :: s.threads[t].uid !in s.table)
    && (forall t, u | t in s.threads && u in s.threads && t != u && Claiming(s.threads[t]) && Claiming(s.threads[u]) ::
          s.threads[t].uid != s.threads[u].uid)
  }

  ghost predicate SinglePrepares(cfg: Config, s: State, run: seq<Action>)
    requires Possible(cfg, s, run)
    decreases |run|
  {
    |run| != 0 ==>
      var before := run[..|run| - 1];
      SinglePrepares(cfg, s, before) && SinglePrepare(After(cfg, s, before), run[|run| - 1])
  }

  lemma SingleKept(s: State, s': State, t: int)
    requires Single(s)
    requires forall u | u in s'.threads && u != t :: u in s.threads && s.threads[u] == s'.threads[u]
    requires t in s'.threads ==> LastDevice(s'.threads[t])
    requires forall u | u in s'.threads && Claiming(s'.threads[u]) :: s'.threads[u].uid !in s'.table
    requires t in s'.threads && Claiming(s'.threads[t]) ==>
      forall u | u in s.threads && u != t && Claiming(s.threads[u]) :: s.threads[u].uid != s'.threads[t].uid
    ensures Single(s')
  {
  }

  lemma FileStepKeepsSingle(s: State, t: int, ok: bool)
    requires Single(s) && t in s.threads && OnFiles(s.threads[t])
    ensures Single(FileStep(s, t, s.threads[t], ok))
  {
    var th, after := s.threads[t], ThreadAfter(s.threads[t], ok);
    assert LastDevice(th);
    assert LastDevice(after) && after.uid == th.uid && (Claiming(after) ==> Claiming(th));
    SingleKept(s, FileStep(s, t, th, ok), t);
  }

  lemma TableStepKeepsSingle(cfg: Config, s: State, t: int, ok: bool)
    requires Single(s) && t in s.threads && (s.threads[t].Recording? || s.threads[t].Forgetting?)
    ensures Single(Step(cfg, s, t, ok))
  {
    assert LastDevice(s.threads[t]);
    SingleKept(s, Step(cfg, s, t, ok), t);
  }

  lemma MaskStepKeepsSingle(cfg: Config, s: State, t: int, ok: bool)
    requires Single(s) && t in s.threads
      && (s.threads[t].Allocating? || s.threads[t].GivingBack? || s.threads[t].Freeing?)
    ensures Single(Step(cfg, s, t, ok))
  {
    assert LastDevice(s.threads[t]);
    SingleKept(s, Step(cfg, s, t, ok), t);
  }

  lemma StepKeepsSingle(cfg: Config, s: State, a: Action)
    requires Single(s) && Enabled(s, a) && SinglePrepare(s, a)
    ensures Single(Next(cfg, s, a))
    ensures Overwritten(s, a) == {}
  {
    var s' := Next(cfg, s, a);
    if a.BeginPrepare? || a.BeginUnprepare? {
      SingleKept(s, s', a.t);
    } else if a.Advance? {
      var th := s.threads[a.t];
      assert LastDevice(th);
      if th.Recording? || th.Forgetting? {
        TableStepKeepsSingle(cfg, s, a.t, a.ok);
      } else if OnFiles(th) {
        FileStepKeepsSingle(s, a.t, a.ok);
      } else {
        MaskStepKeepsSingle(cfg, s, a.t, a.ok);
      }
    }
  }

  /** Single-device claims prepared at most once between unprepares never overwrite. */
  lemma {:induction false} SingleLosesNothing(cfg: Config, s: State, run: seq<Action>)
    requires Single(s) && Possible(cfg, s, run) && SinglePrepares(cfg, s, run)
    ensures Lost(cfg, s, run) == {}
    ensures Single(After(cfg, s, run))
    decreases |run|
  {
    if |run| != 0 {
      var before := run[..|run| - 1];
      SingleLosesNothing(cfg, s, before);
      StepKeepsSingle(cfg, After(cfg, s, before), run[|run| - 1]);
    }
  }

  /** Conservation for such claims: between restarts free, held and recovered ways always
      add up to the total, and with every claim unprepared only recovered ways are used. */
  lemma SingleClaimsConserve(cfg: Config, fs: map<string, seq<Entry>>, unreadable: set<string>, run: seq<Action>,
                             dom: int)
    requires Possible(cfg, Boot(fs, unreadable), run) && CrashFree(run) && GroupsInRange(cfg, fs)
    requires SinglePrepares(cfg, Boot(fs, unreadable), run)
    requires dom in cfg.totals && 0 <= cfg.totals[dom]
    ensures var s := After(cfg, Boot(fs, unreadable), run);
      && FreeBelow(UsedIn(s.used, dom), cfg.totals[dom]) + |UsedIn(AllHeld(s), dom)|
         + |UsedIn(Rebuilt(fs, unreadable), dom)| == cfg.totals[dom]
      && (AtRest(s) ==> s.used == Rebuilt(fs, unreadable))
  {
    NothingLost(cfg, fs, unreadable, run, dom);
    SingleLosesNothing(cfg, Boot(fs, unreadable), run);
    assert UsedIn({}, dom) == {};
  }
}
