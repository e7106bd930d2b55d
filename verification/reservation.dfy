/** Records and their groups: when a recorded claim has its own group with exactly its
  ways. */
module Reservation {
  import opened Results
  import opened Words
  import opened Slots
  import opened GoText
  import opened Schemata
  import opened Names
  import opened Protocol
  import opened Isolation
  import opened Conservation

  /** Group names are recognised after a restart and identify claim and domain. */
  ghost predicate NamesOk(cfg: Config) {
    && (forall c, u :: Ours(cfg.groupOf(c, u)))
    && (forall c1, u1, c2, u2 | IsInt64(c1) && IsInt64(c2) && IsUUID(u1) && IsUUID(u2) ::
          cfg.groupOf(c1, u1) == cfg.groupOf(c2, u2) ==> c1 == c2 && u1 == u2)
  }

  lemma DriverNamesOk(totals: map<int, int>)
    ensures NamesOk(DriverConfig(totals))
  {
    var cfg := DriverConfig(totals);
    forall c, u ensures Ours(cfg.groupOf(c, u)) {
      GroupNameHasPrefix(c, u);
    }
    forall c1, u1, c2, u2 | IsInt64(c1) && IsInt64(c2) && IsUUID(u1) && IsUUID(u2)
                            && cfg.groupOf(c1, u1) == cfg.groupOf(c2, u2)
      ensures c1 == c2 && u1 == u2
    {
      GroupNamesDiffer(c1, u1, c2, u2);
    }
  }

  // ----- calls for one claim follow one another

  ghost predicate Idle(s: State, uid: string) {
    forall t | t in s.threads :: s.threads[t].uid != uid
  }

  /** What the kubelet does: one call per claim at a time; UIDs are UUIDs. */
  ghost predicate Orderly(s: State, a: Action) {
    a.BeginPrepare? || a.BeginUnprepare? ==> IsUUID(a.uid) && Idle(s, a.uid)
  }

  ghost predicate OrderlyRun(cfg: Config, s: State, run: seq<Action>)
    requires Possible(cfg, s, run)
    decreases |run|
  {
    |run| != 0 ==>
      var before := run[..|run| - 1];
      OrderlyRun(cfg, s, before) && Orderly(After(cfg, s, before), run[|run| - 1])
  }

  /** The calls in flight are for different claims. */
  ghost predicate OneCallEach(s: State) {
    && (forall t | t in s.threads :: IsUUID(s.threads[t].uid))
    && (forall t, u | t in s.threads && u in s.threads && t != u :: s.threads[t].uid != s.threads[u].uid)
  }

  /** Only call t, a call for uid, moved. */
  ghost predicate OnlyCall(s: State, s': State, t: int, uid: string) {
    && (forall u :: u != t ==>
          (u in s.threads <==> u in s'.threads) && (u in s.threads ==> s.threads[u] == s'.threads[u]))
    && (t in s'.threads ==> s'.threads[t].uid == uid)
  }

  lemma OneCallEachKept(s: State, s': State, t: int, uid: string)
    requires OneCallEach(s) && OnlyCall(s, s', t, uid) && IsUUID(uid)
    requires forall u | u in s.threads && u != t :: s.threads[u].uid != uid
    ensures OneCallEach(s')
  {
  }

  lemma StepIsLocal(cfg: Config, s: State, t: int, ok: bool)
    requires t in s.threads
    ensures OnlyCall(s, Step(cfg, s, t, ok), t, s.threads[t].uid)
    ensures !OnFiles(s.threads[t]) ==> Step(cfg, s, t, ok).fs == s.fs
    ensures forall v :: v != s.threads[t].uid ==>
      && (v in s.table <==> v in Step(cfg, s, t, ok).table)
      && (v in s.table ==> s.table[v] == Step(cfg, s, t, ok).table[v])
  {
  }

  lemma StepKeepsOneCallEach(cfg: Config, s: State, a: Action)
    requires OneCallEach(s) && Enabled(s, a) && Orderly(s, a)
    ensures OneCallEach(Next(cfg, s, a))
  {
    if a.Advance? {
      StepIsLocal(cfg, s, a.t, a.ok);
      OneCallEachKept(s, Next(cfg, s, a), a.t, s.threads[a.t].uid);
    } else if !a.Crash? {
      OneCallEachKept(s, Next(cfg, s, a), a.t, a.uid);
    }
  }

  /** The grant's group exists and says exactly the grant. */
  predicate Written(fs: map<string, seq<Entry>>, g: Grant) {
    g.group in fs && fs[g.group] == GrantEntries(g)
  }

  // ----- records and their groups

  /** The call changes the group of its claim's record without renewing the record: it
      writes the group, or removes what it had created there. */
  predicate Overrides(s: State, a: Action) {
    a.Advance? && a.ok && a.t in s.threads &&
    var th := s.threads[a.t];
    && (th.WritingSchemata? || th.UndoingDir? || th.UndoingGroup?)
    && th.uid in s.table && s.table[th.uid].dom == th.grant.dom
  }

  predicate Renews(s: State, a: Action) {
    a.Advance? && a.t in s.threads && s.threads[a.t].Recording?
  }

  /** The claims whose group was overridden since their record was last written. */
  ghost function Overridden(cfg: Config, s: State, run: seq<Action>): set<string>
    requires Possible(cfg, s, run)
    decreases |run|
  {
    if |run| == 0 then {} else
      var before, a := run[..|run| - 1], run[|run| - 1];
      OverriddenNext(After(cfg, s, before), a, Overridden(cfg, s, before))
  }

  function OverriddenNext(s: State, a: Action, claims: set<string>): set<string> {
    if Overrides(s, a) then claims + {s.threads[a.t].uid}
    else if Renews(s, a) then claims - {s.threads[a.t].uid}
    else claims
  }

  ghost predicate ThreadSound(s: State, th: Thread) {
    && (th.RemovingGroup? || th.Freeing? ==> th.uid !in s.table)
    && (th.WritingSpec? || th.Recording? ==> Written(s.fs, th.grant))
  }

  /** Every record is in its group, written with exactly its ways, if and only if its
      claim is not among the overridden ones. */
  ghost predicate Sound(s: State, overridden: set<string>) {
    && OneCallEach(s)
    && (forall uid | uid in s.table :: IsUUID(uid) && (Written(s.fs, s.table[uid]) <==> uid !in overridden))
    && (forall t | t in s.threads :: ThreadSound(s, s.threads[t]))
  }

  /** The step touched only what belongs to claim uid. */
  ghost predicate OnlyFor(cfg: Config, s: State, s': State, t: int, uid: string) {
    && (forall v :: v != uid ==> (v in s.table <==> v in s'.table) && (v in s.table ==> s.table[v] == s'.table[v]))
    && (forall u :: u != t ==>
          (u in s.threads <==> u in s'.threads) && (u in s.threads ==> s.threads[u] == s'.threads[u]))
    && (forall v, g | v != uid && IsUUID(v) && GrantOk(cfg, g, v) :: Written(s.fs, g) <==> Written(s'.fs, g))
  }

  lemma OthersSound(cfg: Config, s: State, s': State, t: int, uid: string, u: int)
    requires WellFormed(cfg, s) && OneCallEach(s) && OnlyFor(cfg, s, s', t, uid)
    requires u in s.threads && u != t && s.threads[u].uid != uid && ThreadSound(s, s.threads[u])
    ensures u in s'.threads && ThreadSound(s', s'.threads[u])
  {
    assert ThreadOk(cfg, s.threads[u]);
  }

  lemma SoundKept(cfg: Config, s: State, s': State, t: int, uid: string, before: set<string>, overridden: set<string>)
    requires WellFormed(cfg, s) && Sound(s, before) && OnlyFor(cfg, s, s', t, uid) && OneCallEach(s')
    requires IsUUID(uid) && forall u | u in s.threads && u != t :: s.threads[u].uid != uid
    requires forall v | v != uid :: v in before <==> v in overridden
    requires t in s'.threads ==> ThreadSound(s', s'.threads[t])
    requires uid in s'.table ==> (Written(s'.fs, s'.table[uid]) <==> uid !in overridden)
    ensures Sound(s', overridden)
  {
    forall u | u in s'.threads ensures ThreadSound(s', s'.threads[u]) {
      if u != t { OthersSound(cfg, s, s', t, uid, u); }
    }
    forall v | v in s'.table ensures IsUUID(v) && (Written(s'.fs, s'.table[v]) <==> v !in overridden) {
      if v != uid { assert GrantOk(cfg, s.table[v], v); }
    }
  }

  /** A file step of claim uid in a domain leaves every other group alone. */
  lemma OtherGroupsUntouched(cfg: Config, fs: map<string, seq<Entry>>, th: Thread, ok: bool, v: string, g: Grant)
    requires NamesOk(cfg) && OnFiles(th) && GrantOk(cfg, th.grant, th.uid) && IsUUID(th.uid)
    requires IsUUID(v) && GrantOk(cfg, g, v) && (v != th.uid || g.dom != th.grant.dom)
    ensures Written(fs, g) <==> Written(FilesAfter(fs, th, ok), g)
  {
    assert g.group != th.grant.group;
  }

  predicate WaysFit(totals: map<int, int>) {
    forall d | d in totals :: IsInt64(d) && 0 <= totals[d] <= WORD
  }

  lemma GrantHasWays(cfg: Config, g: Grant, uid: string)
    requires GrantOk(cfg, g, uid) && WaysFit(cfg.totals)
    ensures GrantSlots(g) != {}
  {
    var start: nat :| start + g.ways <= cfg.totals[g.dom] && g.mask == Mask(start, g.ways);
    WaysMask(start, g.ways);
    assert Within(start, g.ways, start);
    MaskSlotsMember(g.dom, g.mask, Slot(g.dom, start));
  }

  /** A call and the record of its claim never have the same ways. */
  lemma CallDiffersFromRecord(cfg: Config, s: State, t: int)
    requires WellFormed(cfg, s) && Isolated(s) && WaysFit(cfg.totals)
    requires t in s.threads && ThreadGrant(s.threads[t]).Some? && s.threads[t].uid in s.table
    ensures s.table[s.threads[t].uid].dom == s.threads[t].grant.dom ==>
      s.table[s.threads[t].uid].mask != s.threads[t].grant.mask
  {
    var th := s.threads[t];
    assert ThreadOk(cfg, th);
    GrantHasWays(cfg, th.grant, th.uid);
    assert Held(s, InThread(t)) !! Held(s, InTable(th.uid));
  }

  /** What a file step does to the record of its own claim. */
  lemma OwnRecordAfter(cfg: Config, s: State, t: int, ok: bool)
    requires NamesOk(cfg) && WellFormed(cfg, s) && Isolated(s) && WaysFit(cfg.totals) && OneCallEach(s)
    requires t in s.threads && OnFiles(s.threads[t]) && !s.threads[t].RemovingGroup? && s.threads[t].uid in s.table
    ensures var th, g := s.threads[t], s.table[s.threads[t].uid];
      Written(FilesAfter(s.fs, th, ok), g) <==> Written(s.fs, g) && !Overrides(s, Advance(t, ok))
  {
    var th, g := s.threads[t], s.table[s.threads[t].uid];
    assert ThreadOk(cfg, th) && GrantOk(cfg, g, th.uid);
    CallDiffersFromRecord(cfg, s, t);
    if g.dom != th.grant.dom {
      OtherGroupsUntouched(cfg, s.fs, th, ok, th.uid, g);
    } else {
      assert g.group == th.grant.group;
      assert GrantEntries(th.grant)[0].mask != GrantEntries(g)[0].mask;
    }
  }

  lemma FileStepOnlyFor(cfg: Config, s: State, t: int, ok: bool)
    requires NamesOk(cfg) && WellFormed(cfg, s) && OneCallEach(s) && t in s.threads && OnFiles(s.threads[t])
    ensures OnlyFor(cfg, s, FileStep(s, t, s.threads[t], ok), t, s.threads[t].uid)
  {
    var th, s' := s.threads[t], FileStep(s, t, s.threads[t], ok);
    assert ThreadOk(cfg, th);
    forall v, g | v != th.uid && IsUUID(v) && GrantOk(cfg, g, v) ensures Written(s.fs, g) <==> Written(s'.fs, g) {
      OtherGroupsUntouched(cfg, s.fs, th, ok, v, g);
    }
  }

  lemma FileStepKeepsSound(cfg: Config, s: State, t: int, ok: bool, overridden: set<string>)
    requires NamesOk(cfg) && WellFormed(cfg, s) && Isolated(s) && WaysFit(cfg.totals) && Sound(s, overridden)
    requires Enabled(s, Advance(t, ok)) && OnFiles(s.threads[t])
    ensures Sound(FileStep(s, t, s.threads[t], ok), OverriddenNext(s, Advance(t, ok), overridden))
  {
    var th, s' := s.threads[t], FileStep(s, t, s.threads[t], ok);
    assert ThreadSound(s, th);
    var after := ThreadAfter(th, ok);
    assert after.uid == th.uid && after.grant == th.grant;
    FileStepOnlyFor(cfg, s, t, ok);
    if th.uid in s.table { OwnRecordAfter(cfg, s, t, ok); }
    StepKeepsOneCallEach(cfg, s, Advance(t, ok));
    assert ThreadSound(s', after);
    SoundKept(cfg, s, s', t, th.uid, overridden, OverriddenNext(s, Advance(t, ok), overridden));
  }

  /** Steps on the allocator. */
  lemma MaskStepKeepsSound(cfg: Config, s: State, t: int, ok: bool, overridden: set<string>)
    requires WellFormed(cfg, s) && Sound(s, overridden) && t in s.threads
    requires s.threads[t].Allocating? || s.threads[t].GivingBack? || s.threads[t].Freeing?
    ensures Sound(Step(cfg, s, t, ok), OverriddenNext(s, Advance(t, ok), overridden))
  {
    MaskStepIsQuiet(cfg, s, t, ok);
    QuietKeepsSound(cfg, s, Step(cfg, s, t, ok), t, overridden);
  }

  lemma MaskStepIsQuiet(cfg: Config, s: State, t: int, ok: bool)
    requires t in s.threads && (s.threads[t].Allocating? || s.threads[t].GivingBack? || s.threads[t].Freeing?)
    ensures var s' := Step(cfg, s, t, ok);
      && s'.fs == s.fs && s'.table == s.table && OnlyCall(s, s', t, s.threads[t].uid)
      && (t in s'.threads ==> ThreadSound(s', s'.threads[t]))
  {
  }

  lemma QuietKeepsSound(cfg: Config, s: State, s': State, t: int, overridden: set<string>)
    requires WellFormed(cfg, s) && Sound(s, overridden) && t in s.threads
    requires s'.fs == s.fs && s'.table == s.table && OnlyCall(s, s', t, s.threads[t].uid)
    requires t in s'.threads ==> ThreadSound(s', s'.threads[t])
    ensures Sound(s', overridden)
  {
    OneCallEachKept(s, s', t, s.threads[t].uid);
    SoundKept(cfg, s, s', t, s.threads[t].uid, overridden, overridden);
  }

  lemma RecordKeepsSound(cfg: Config, s: State, t: int, overridden: set<string>)
    requires WellFormed(cfg, s) && Sound(s, overridden) && t in s.threads && s.threads[t].Recording?
    ensures var th := s.threads[t];
      Sound(RecordStep(s, t, th.uid, th.todo, th.grant), overridden - {th.uid})
  {
    var th := s.threads[t];
    var s' := RecordStep(s, t, th.uid, th.todo, th.grant);
    assert ThreadSound(s, th);
    OneCallEachKept(s, s', t, th.uid);
    SoundKept(cfg, s, s', t, th.uid, overridden, overridden - {th.uid});
  }

  lemma ForgetKeepsSound(cfg: Config, s: State, t: int, overridden: set<string>)
    requires WellFormed(cfg, s) && Sound(s, overridden) && t in s.threads && s.threads[t].Forgetting?
    ensures Sound(ForgetStep(s, t, s.threads[t].uid), overridden)
  {
    var uid := s.threads[t].uid;
    var s' := ForgetStep(s, t, uid);
    assert t in s'.threads ==> ThreadSound(s', s'.threads[t]);
    OneCallEachKept(s, s', t, uid);
    SoundKept(cfg, s, s', t, uid, overridden, overridden);
  }

  lemma StepKeepsSound(cfg: Config, s: State, a: Action, overridden: set<string>)
    requires NamesOk(cfg) && WellFormed(cfg, s) && Isolated(s) && WaysFit(cfg.totals) && Sound(s, overridden)
    requires Enabled(s, a) && Orderly(s, a)
    ensures Sound(Next(cfg, s, a), OverriddenNext(s, a, overridden))
  {
    match a
    case Crash(_) =>
    case Advance(t, ok) =>
      if OnFiles(s.threads[t]) {
        FileStepKeepsSound(cfg, s, t, ok, overridden);
      } else if s.threads[t].Recording? {
        RecordKeepsSound(cfg, s, t, overridden);
      } else if s.threads[t].Forgetting? {
        ForgetKeepsSound(cfg, s, t, overridden);
      } else {
        MaskStepKeepsSound(cfg, s, t, ok, overridden);
      }
    case _ =>
      StepKeepsOneCallEach(cfg, s, a);
      SoundKept(cfg, s, Next(cfg, s, a), a.t, a.uid, overridden, overridden);
  }

  /** While calls for one claim follow one another, whatever happens to the files and
      whoever crashes: a recorded claim has its own group with exactly its ways if and
      only if no later prepare of the claim has overridden that group without
      recording a new grant. */
  lemma {:induction false} RecordedClaimsHaveGroups(cfg: Config, s: State, run: seq<Action>)
    requires NamesOk(cfg) && WaysFit(cfg.totals) && WellFormed(cfg, s) && Isolated(s) && Sound(s, {})
    requires Possible(cfg, s, run) && OrderlyRun(cfg, s, run)
    ensures Sound(After(cfg, s, run), Overridden(cfg, s, run))
    decreases |run|
  {
    if |run| != 0 {
      var before := run[..|run| - 1];
      RecordedClaimsHaveGroups(cfg, s, before);
      AlwaysWellFormed(cfg, s, before);
      StaysIsolated(cfg, s, before);
      StepKeepsSound(cfg, After(cfg, s, before), run[|run| - 1], Overridden(cfg, s, before));
    }
  }

  lemma {:induction false} AlwaysOneCallEach(cfg: Config, s: State, run: seq<Action>)
    requires OneCallEach(s) && Possible(cfg, s, run) && OrderlyRun(cfg, s, run)
    ensures OneCallEach(After(cfg, s, run))
    decreases |run|
  {
    if |run| != 0 {
      AlwaysOneCallEach(cfg, s, run[..|run| - 1]);
      StepKeepsOneCallEach(cfg, After(cfg, s, run[..|run| - 1]), run[|run| - 1]);
    }
  }
}
