/** What a claim can rely on once its prepare has returned success: its groups are
  written, and nobody else gets their ways until the claim is called again. */
module Prepared {
  import opened Results
  import opened Slots
  import opened Schemata
  import opened Names
  import opened Protocol
  import opened Isolation
  import opened Conservation
  import opened Reservation

  // ----- afterwards

  /** No call for the claim begins, and other claims have UUIDs too. */
  predicate NotAbout(a: Action, uid: string) {
    a.BeginPrepare? || a.BeginUnprepare? ==> a.uid != uid && IsUUID(a.uid)
  }

  predicate RunNotAbout(run: seq<Action>, uid: string) {
    forall a | a in run :: NotAbout(a, uid)
  }

  /** The claim's group is written and nobody works on the claim. */
  ghost predicate Reserved(s: State, uid: string, g: Grant) {
    Written(s.fs, g) && forall t | t in s.threads :: s.threads[t].uid != uid && IsUUID(s.threads[t].uid)
  }

  lemma FileStepKeepsReserved(cfg: Config, s: State, t: int, ok: bool, uid: string, g: Grant)
    requires NamesOk(cfg) && WellFormed(cfg, s) && t in s.threads && OnFiles(s.threads[t])
    requires IsUUID(uid) && GrantOk(cfg, g, uid) && Reserved(s, uid, g)
    ensures Reserved(FileStep(s, t, s.threads[t], ok), uid, g)
  {
    var th := s.threads[t];
    assert ThreadOk(cfg, th);
    OtherGroupsUntouched(cfg, s.fs, th, ok, uid, g);
    assert ThreadAfter(th, ok).uid == th.uid;
  }

  /** Steps that leave the files alone, in a call for another claim. */
  lemma OtherStepKeepsReserved(cfg: Config, s: State, t: int, ok: bool, uid: string, g: Grant)
    requires t in s.threads && !OnFiles(s.threads[t]) && Reserved(s, uid, g)
    ensures Reserved(Step(cfg, s, t, ok), uid, g)
  {
    var s' := Step(cfg, s, t, ok);
    assert s'.fs == s.fs;
    assert t in s'.threads ==> s'.threads[t].uid == s.threads[t].uid;
  }

  lemma StepKeepsReserved(cfg: Config, s: State, a: Action, uid: string, g: Grant)
    requires NamesOk(cfg) && WellFormed(cfg, s) && Enabled(s, a) && NotAbout(a, uid)
    requires IsUUID(uid) && GrantOk(cfg, g, uid) && Reserved(s, uid, g)
    ensures Reserved(Next(cfg, s, a), uid, g)
  {
    if a.Advance? {
      if OnFiles(s.threads[a.t]) {
        FileStepKeepsReserved(cfg, s, a.t, a.ok, uid, g);
      } else {
        OtherStepKeepsReserved(cfg, s, a.t, a.ok, uid, g);
      }
    }
  }

  lemma {:induction false} StaysReserved(cfg: Config, s: State, run: seq<Action>, uid: string, g: Grant)
    requires NamesOk(cfg) && WellFormed(cfg, s) && Possible(cfg, s, run) && RunNotAbout(run, uid)
    requires IsUUID(uid) && GrantOk(cfg, g, uid) && Reserved(s, uid, g)
    ensures Reserved(After(cfg, s, run), uid, g) && WellFormed(cfg, After(cfg, s, run))
    decreases |run|
  {
    if |run| != 0 {
      var before := run[..|run| - 1];
      StaysReserved(cfg, s, before, uid, g);
      assert run[|run| - 1] in run;
      StepKeepsReserved(cfg, After(cfg, s, before), run[|run| - 1], uid, g);
      StepKeepsForm(cfg, After(cfg, s, before), run[|run| - 1]);
    }
  }

  lemma WrittenIsLive(s: State, g: Grant)
    requires Written(s.fs, g) && Ours(g.group)
    ensures LiveSlots(s.fs, g.group) == GrantSlots(g)
  {
    WrittenEntries(g);
  }

  // ----- ways that belong to one claim

  /** The ways are used, and nobody holds any of them but perhaps the claim's record. */
  ghost predicate Exclusive(s: State, uid: string, g: Grant) {
    GrantSlots(g) <= s.used && forall h :: h != InTable(uid) ==> Held(s, h) !! GrantSlots(g)
  }

  /** Only an unprepare of the claim itself could change that. */
  lemma StepKeepsExclusive(cfg: Config, s: State, a: Action, uid: string, g: Grant)
    requires Exclusive(s, uid, g) && Enabled(s, a) && !a.Crash?
    requires a.Advance? && s.threads[a.t].Forgetting? ==> s.threads[a.t].uid != uid
    ensures Exclusive(Next(cfg, s, a), uid, g)
  {
    var s' := Next(cfg, s, a);
    StepEffect(cfg, s, a);
    if !Quiet(s, s') {
      var th, x := s.threads[a.t], InThread(a.t);
      assert Held(s, x) !! GrantSlots(g);
      if th.Recording? {
        HandsKeepExclusive(s, s', x, InTable(th.uid), uid, g);
      } else if th.Forgetting? {
        HandsKeepExclusive(s, s', InTable(th.uid), x, uid, g);
      } else if th.Allocating? {
        assert Takes(s, s', x, Held(s', x));
      }
    }
  }

  lemma HandsKeepExclusive(s: State, s': State, x: Holder, y: Holder, uid: string, g: Grant)
    requires Exclusive(s, uid, g) && Hands(s, s', x, y) && x != InTable(uid)
    ensures Exclusive(s', uid, g)
  {
  }

  /** A written group with the claim's ways, and no call of the claim in flight. */
  ghost predicate Guarded(s: State, uid: string, g: Grant) {
    Reserved(s, uid, g) && Exclusive(s, uid, g)
  }

  /** A restart finds the ways in the groups it can read. */
  ghost predicate Finds(s: State, a: Action, g: Grant) {
    a.Crash? ==> GrantSlots(g) <= Rebuilt(s.fs, a.unreadable)
  }

  ghost predicate FindingRun(cfg: Config, s: State, run: seq<Action>, g: Grant)
    requires Possible(cfg, s, run)
    decreases |run|
  {
    |run| != 0 ==>
      var before := run[..|run| - 1];
      FindingRun(cfg, s, before, g) && Finds(After(cfg, s, before), run[|run| - 1], g)
  }

  lemma StepKeepsGuarded(cfg: Config, s: State, a: Action, uid: string, g: Grant)
    requires NamesOk(cfg) && WellFormed(cfg, s) && Enabled(s, a) && NotAbout(a, uid)
    requires IsUUID(uid) && GrantOk(cfg, g, uid) && Guarded(s, uid, g) && Finds(s, a, g)
    ensures Guarded(Next(cfg, s, a), uid, g)
  {
    StepKeepsReserved(cfg, s, a, uid, g);
    if a.Crash? {
      assert forall h :: Held(Next(cfg, s, a), h) == {};
    } else {
      StepKeepsExclusive(cfg, s, a, uid, g);
    }
  }

  lemma {:induction false} StaysGuarded(cfg: Config, s: State, run: seq<Action>, uid: string, g: Grant)
    requires NamesOk(cfg) && WellFormed(cfg, s) && Possible(cfg, s, run) && RunNotAbout(run, uid)
    requires IsUUID(uid) && GrantOk(cfg, g, uid) && Guarded(s, uid, g) && FindingRun(cfg, s, run, g)
    ensures Guarded(After(cfg, s, run), uid, g) && WellFormed(cfg, After(cfg, s, run))
    decreases |run|
  {
    if |run| != 0 {
      var before := run[..|run| - 1];
      StaysGuarded(cfg, s, before, uid, g);
      assert run[|run| - 1] in run;
      StepKeepsGuarded(cfg, After(cfg, s, before), run[|run| - 1], uid, g);
      StepKeepsForm(cfg, After(cfg, s, before), run[|run| - 1]);
    }
  }

  /** Every restart of the run can read the group. */
  predicate Readable(run: seq<Action>, group: string) {
    forall a | a in run :: a.Crash? ==> group !in a.unreadable
  }

  lemma ReadableIsFound(s: State, g: Grant, unreadable: set<string>)
    requires Written(s.fs, g) && Ours(g.group) && g.group !in unreadable
    ensures GrantSlots(g) <= Rebuilt(s.fs, unreadable)
  {
    WrittenIsLive(s, g);
  }

  lemma {:induction false} ReadableRunFinds(cfg: Config, s: State, run: seq<Action>, uid: string, g: Grant)
    requires NamesOk(cfg) && WellFormed(cfg, s) && Possible(cfg, s, run) && RunNotAbout(run, uid)
    requires IsUUID(uid) && GrantOk(cfg, g, uid) && Reserved(s, uid, g) && Readable(run, g.group)
    ensures FindingRun(cfg, s, run, g)
    decreases |run|
  {
    if |run| != 0 {
      var before, a := run[..|run| - 1], run[|run| - 1];
      ReadableRunFinds(cfg, s, before, uid, g);
      StaysReserved(cfg, s, before, uid, g);
      assert a in run;
      if a.Crash? { ReadableIsFound(After(cfg, s, before), g, a.unreadable); }
    }
  }

  /** No request is granted a way of g. */
  ghost predicate NotHandedOut(cfg: Config, s: State, g: Grant) {
    forall dom, ways | AllocateResult(cfg.totals, s.used, dom, ways).Ok? ::
      MaskSlots(dom, AllocateResult(cfg.totals, s.used, dom, ways).value) !! GrantSlots(g)
  }

  lemma UsedIsNotHandedOut(cfg: Config, s: State, g: Grant)
    requires GrantSlots(g) <= s.used
    ensures NotHandedOut(cfg, s, g)
  {
    forall dom, ways | AllocateResult(cfg.totals, s.used, dom, ways).Ok?
      ensures MaskSlots(dom, AllocateResult(cfg.totals, s.used, dom, ways).value) !! GrantSlots(g)
    {
      GrantIsFree(cfg.totals, s.used, dom, ways);
    }
  }

  /** A group that is written and exclusive keeps its ways from everybody else until the
      next call for its claim, whatever other calls do and however their removals fail,
      as long as restarts find the ways. */
  lemma WrittenGroupKeepsItsWays(cfg: Config, s: State, uid: string, g: Grant, after: seq<Action>)
    requires NamesOk(cfg) && WellFormed(cfg, s)
    requires IsUUID(uid) && GrantOk(cfg, g, uid) && Guarded(s, uid, g)
    requires Possible(cfg, s, after) && RunNotAbout(after, uid) && FindingRun(cfg, s, after, g)
    ensures var s' := After(cfg, s, after);
      Written(s'.fs, g) && GrantSlots(g) <= s'.used && NotHandedOut(cfg, s', g)
  {
    StaysGuarded(cfg, s, after, uid, g);
    UsedIsNotHandedOut(cfg, After(cfg, s, after), g);
  }

  // ----- a prepare that returns success

  /** Request j is the last of the first n for its domain. */
  predicate LastOf(reqs: seq<Request>, n: nat, j: nat) {
    j < n <= |reqs| && forall k | j < k < n :: reqs[k].dom != reqs[j].dom
  }

  /** The claim has a written group with the requested ways, which nobody else holds. */
  ghost predicate Served(cfg: Config, s: State, uid: string, r: Request) {
    exists g :: GrantOk(cfg, g, uid) && g.dom == r.dom && g.ways == r.ways && Written(s.fs, g) && Exclusive(s, uid, g)
  }

  predicate HasTodo(th: Thread) {
    th.Allocating? || th.MakingDir? || th.WritingSchemata? || th.WritingSpec? || th.Recording?
  }

  ghost predicate ServedButFor(cfg: Config, s: State, uid: string, reqs: seq<Request>, n: nat, i: int) {
    forall j: nat | LastOf(reqs, n, j) && j != i :: Served(cfg, s, uid, reqs[j])
  }

  /** How far a prepare that has not failed is: what comes before is served, unless a
      later request for the same domain replaced it. */
  ghost predicate Working(cfg: Config, s: State, th: Thread, uid: string, reqs: seq<Request>, i: nat) {
    if th.Allocating? then
      && i <= |reqs| && th.todo == reqs[i..] && ServedButFor(cfg, s, uid, reqs, i, -1)
      && (i > 0 ==>
            && uid in s.table && Written(s.fs, s.table[uid])
            && s.table[uid].dom == reqs[i - 1].dom && s.table[uid].ways == reqs[i - 1].ways)
    else
      && HasTodo(th) && i < |reqs| && th.todo == reqs[i + 1..]
      && th.grant.dom == reqs[i].dom && th.grant.ways == reqs[i].ways
      && ServedButFor(cfg, s, uid, reqs, i + 1, i)
      && (th.WritingSpec? || th.Recording? ==> Written(s.fs, th.grant))
  }

  ghost predicate Progress(cfg: Config, s: State, t: int, uid: string, reqs: seq<Request>) {
    && t in s.threads && s.threads[t].uid == uid
    && (HasTodo(s.threads[t]) ==> exists i: nat :: Working(cfg, s, s.threads[t], uid, reqs, i))
  }

  /** Steps of other claims' calls, and of the claim's own prepare in other domains. */
  lemma ServedKept(cfg: Config, s: State, a: Action, uid: string, r: Request)
    requires NamesOk(cfg) && WellFormed(cfg, s) && OneCallEach(s) && Enabled(s, a) && !a.Crash? && IsUUID(uid)
    requires a.Advance? && s.threads[a.t].Forgetting? ==> s.threads[a.t].uid != uid
    requires a.Advance? && OnFiles(s.threads[a.t]) ==> s.threads[a.t].uid != uid || s.threads[a.t].grant.dom != r.dom
    ensures Served(cfg, s, uid, r) ==> Served(cfg, Next(cfg, s, a), uid, r)
  {
    if Served(cfg, s, uid, r) {
      var g :| GrantOk(cfg, g, uid) && g.dom == r.dom && g.ways == r.ways && Written(s.fs, g) && Exclusive(s, uid, g);
      StepKeepsExclusive(cfg, s, a, uid, g);
      WrittenElsewhere(cfg, s, a, uid, g);
    }
  }

  lemma WrittenElsewhere(cfg: Config, s: State, a: Action, uid: string, g: Grant)
    requires NamesOk(cfg) && WellFormed(cfg, s) && OneCallEach(s) && Enabled(s, a) && !a.Crash? && IsUUID(uid)
    requires GrantOk(cfg, g, uid)
    requires a.Advance? && OnFiles(s.threads[a.t]) ==> s.threads[a.t].uid != uid || s.threads[a.t].grant.dom != g.dom
    ensures Written(s.fs, g) <==> Written(Next(cfg, s, a).fs, g)
  {
    if a.Advance? {
      StepIsLocal(cfg, s, a.t, a.ok);
      if OnFiles(s.threads[a.t]) {
        assert ThreadOk(cfg, s.threads[a.t]);
        OtherGroupsUntouched(cfg, s.fs, s.threads[a.t], a.ok, uid, g);
      }
    }
  }

  /** The groups of other claims changed at most. */
  lemma WorkingKept(cfg: Config, s: State, s': State, th: Thread, uid: string, reqs: seq<Request>, i: nat)
    requires Working(cfg, s, th, uid, reqs, i)
    requires uid in s.table <==> uid in s'.table
    requires uid in s.table ==>
      s.table[uid] == s'.table[uid] && (Written(s.fs, s.table[uid]) ==> Written(s'.fs, s.table[uid]))
    requires forall r | Served(cfg, s, uid, r) :: Served(cfg, s', uid, r)
    requires ThreadGrant(th).Some? && Written(s.fs, th.grant) ==> Written(s'.fs, th.grant)
    ensures Working(cfg, s', th, uid, reqs, i)
  {
  }

  /** A step of another claim's call. */
  lemma OtherCallKeepsProgress(cfg: Config, s: State, a: Action, t: int, uid: string, reqs: seq<Request>, i: nat)
    requires NamesOk(cfg) && WellFormed(cfg, s) && OneCallEach(s) && Enabled(s, a) && a.Advance? && a.t != t
    requires t in s.threads && s.threads[t].uid == uid && Working(cfg, s, s.threads[t], uid, reqs, i)
    ensures Working(cfg, Next(cfg, s, a), s.threads[t], uid, reqs, i)
  {
    var s', th := Next(cfg, s, a), s.threads[t];
    forall r | Served(cfg, s, uid, r) ensures Served(cfg, s', uid, r) {
      ServedKept(cfg, s, a, uid, r);
    }
    StepIsLocal(cfg, s, a.t, a.ok);
    assert ThreadOk(cfg, th);
    if ThreadGrant(th).Some? { WrittenElsewhere(cfg, s, a, uid, th.grant); }
    if uid in s.table { WrittenElsewhere(cfg, s, a, uid, s.table[uid]); }
    WorkingKept(cfg, s, s', th, uid, reqs, i);
  }

  /** A file step of the call itself. */
  lemma OwnFileStepKeepsProgress(cfg: Config, s: State, t: int, ok: bool, uid: string, reqs: seq<Request>, i: nat)
    requires NamesOk(cfg) && WellFormed(cfg, s) && OneCallEach(s) && Enabled(s, Advance(t, ok)) && OnFiles(s.threads[t])
    requires s.threads[t].uid == uid && Working(cfg, s, s.threads[t], uid, reqs, i)
    ensures var s' := FileStep(s, t, s.threads[t], ok);
      HasTodo(s'.threads[t]) ==> Working(cfg, s', s'.threads[t], uid, reqs, i)
  {
    var th, s' := s.threads[t], FileStep(s, t, s.threads[t], ok);
    assert Next(cfg, s, Advance(t, ok)) == s';
    forall j: nat | LastOf(reqs, i + 1, j) && j != i ensures Served(cfg, s', uid, reqs[j]) {
      ServedKept(cfg, s, Advance(t, ok), uid, reqs[j]);
    }
  }

  lemma AllocateKeepsProgress(cfg: Config, s: State, t: int, ok: bool, uid: string, reqs: seq<Request>, i: nat)
    requires NamesOk(cfg) && WellFormed(cfg, s) && OneCallEach(s)
    requires t in s.threads && s.threads[t].Allocating? && s.threads[t].uid == uid
    requires Working(cfg, s, s.threads[t], uid, reqs, i)
    ensures var s' := Step(cfg, s, t, ok);
      t in s'.threads ==> Working(cfg, s', s'.threads[t], uid, reqs, i)
  {
    var s' := Step(cfg, s, t, ok);
    if t in s'.threads {
      assert reqs[i..][1..] == reqs[i + 1..];
      forall j: nat | LastOf(reqs, i + 1, j) && j != i ensures Served(cfg, s', uid, reqs[j]) {
        assert LastOf(reqs, i, j);
        ServedKept(cfg, s, Advance(t, ok), uid, reqs[j]);
      }
    }
  }

  lemma RecordKeepsProgress(cfg: Config, s: State, t: int, ok: bool, uid: string, reqs: seq<Request>, i: nat)
    requires NamesOk(cfg) && WellFormed(cfg, s) && Isolated(s) && OneCallEach(s)
    requires t in s.threads && s.threads[t].Recording? && s.threads[t].uid == uid
    requires Working(cfg, s, s.threads[t], uid, reqs, i)
    ensures var s' := Step(cfg, s, t, ok);
      t in s'.threads && Working(cfg, s', s'.threads[t], uid, reqs, i + 1)
  {
    var s', th := Step(cfg, s, t, ok), s.threads[t];
    assert ThreadOk(cfg, th);
    RecordedIsExclusive(cfg, s, t, ok);
    assert Served(cfg, s', uid, reqs[i]);
    forall j: nat | LastOf(reqs, i + 1, j) ensures Served(cfg, s', uid, reqs[j]) {
      if j != i { ServedKept(cfg, s, Advance(t, ok), uid, reqs[j]); }
    }
  }

  lemma RecordedIsExclusive(cfg: Config, s: State, t: int, ok: bool)
    requires Isolated(s) && t in s.threads && s.threads[t].Recording?
    ensures Exclusive(Step(cfg, s, t, ok), s.threads[t].uid, s.threads[t].grant)
  {
    var s', x := Step(cfg, s, t, ok), InThread(t);
    RecordEffect(cfg, s, Advance(t, ok));
    assert Held(s, x) == GrantSlots(s.threads[t].grant) && Held(s, x) <= s.used;
    forall h | h != InTable(s.threads[t].uid) ensures Held(s', h) !! Held(s, x) {
      assert h != x ==> Held(s, h) !! Held(s, x);
    }
  }

  lemma OwnStepKeepsProgress(cfg: Config, s: State, t: int, ok: bool, uid: string, reqs: seq<Request>, i: nat)
    requires NamesOk(cfg) && WellFormed(cfg, s) && Isolated(s) && OneCallEach(s) && Enabled(s, Advance(t, ok))
    requires s.threads[t].uid == uid
    requires HasTodo(s.threads[t]) && Working(cfg, s, s.threads[t], uid, reqs, i) && t in Step(cfg, s, t, ok).threads
    ensures Progress(cfg, Step(cfg, s, t, ok), t, uid, reqs)
  {
    var th := s.threads[t];
    if th.Allocating? {
      AllocateKeepsProgress(cfg, s, t, ok, uid, reqs, i);
    } else if th.Recording? {
      RecordKeepsProgress(cfg, s, t, ok, uid, reqs, i);
    } else {
      OwnFileStepKeepsProgress(cfg, s, t, ok, uid, reqs, i);
    }
    StepIsLocal(cfg, s, t, ok);
  }

  /** A prepare that failed does not go back to work. */
  lemma FailedStaysFailed(cfg: Config, s: State, t: int, ok: bool)
    requires t in s.threads && !HasTodo(s.threads[t]) && t in Step(cfg, s, t, ok).threads
    ensures !HasTodo(Step(cfg, s, t, ok).threads[t])
  {
  }

  lemma StepKeepsProgress(cfg: Config, s: State, a: Action, t: int, uid: string, reqs: seq<Request>)
    requires NamesOk(cfg) && WellFormed(cfg, s) && Isolated(s) && OneCallEach(s) && Enabled(s, a) && !a.Crash?
    requires Progress(cfg, s, t, uid, reqs) && t in Next(cfg, s, a).threads
    ensures Progress(cfg, Next(cfg, s, a), t, uid, reqs)
  {
    var th := s.threads[t];
    if a.Advance? && a.t == t {
      StepIsLocal(cfg, s, t, a.ok);
      if HasTodo(th) {
        var i: nat :| Working(cfg, s, th, uid, reqs, i);
        OwnStepKeepsProgress(cfg, s, t, a.ok, uid, reqs, i);
      } else {
        FailedStaysFailed(cfg, s, t, a.ok);
      }
    } else if a.Advance? {
      StepIsLocal(cfg, s, a.t, a.ok);
      if HasTodo(th) {
        var i: nat :| Working(cfg, s, th, uid, reqs, i);
        OtherCallKeepsProgress(cfg, s, a, t, uid, reqs, i);
      }
    } else if HasTodo(th) {
      var i: nat :| Working(cfg, s, th, uid, reqs, i);
      forall r | Served(cfg, s, uid, r) ensures Served(cfg, Next(cfg, s, a), uid, r) {
        ServedKept(cfg, s, a, uid, r);
      }
      WorkingKept(cfg, s, Next(cfg, s, a), th, uid, reqs, i);
    }
  }

  /** Call t goes on throughout the run. */
  ghost predicate InCall(cfg: Config, s: State, run: seq<Action>, t: int)
    requires Possible(cfg, s, run)
    decreases |run|
  {
    && t in After(cfg, s, run).threads
    && (|run| != 0 ==> !run[|run| - 1].Crash? && InCall(cfg, s, run[..|run| - 1], t))
  }

  lemma {:induction false} CallProgresses(cfg: Config, s: State, run: seq<Action>, t: int, uid: string,
                                          reqs: seq<Request>)
    requires NamesOk(cfg) && WellFormed(cfg, s) && Isolated(s) && OneCallEach(s) && Progress(cfg, s, t, uid, reqs)
    requires Possible(cfg, s, run) && OrderlyRun(cfg, s, run) && InCall(cfg, s, run, t)
    ensures var s' := After(cfg, s, run);
      WellFormed(cfg, s') && Isolated(s') && OneCallEach(s') && Progress(cfg, s', t, uid, reqs)
    decreases |run|
  {
    if |run| != 0 {
      var before := run[..|run| - 1];
      CallProgresses(cfg, s, before, t, uid, reqs);
      var s1 := After(cfg, s, before);
      StepKeepsForm(cfg, s1, run[|run| - 1]);
      StepKeepsIsolation(cfg, s1, run[|run| - 1]);
      StepKeepsOneCallEach(cfg, s1, run[|run| - 1]);
      StepKeepsProgress(cfg, s1, run[|run| - 1], t, uid, reqs);
    }
  }

  /** Call t, a prepare of uid that began in state s, has gone through all its requests
      while the others did `meanwhile`; what remains is to return success. */
  ghost predicate Succeeds(cfg: Config, s: State, t: int, uid: string, reqs: seq<Request>, meanwhile: seq<Action>) {
    && reqs != [] && Enabled(s, BeginPrepare(t, uid, reqs)) && Orderly(s, BeginPrepare(t, uid, reqs))
    && var s1 := Next(cfg, s, BeginPrepare(t, uid, reqs));
    && Possible(cfg, s1, meanwhile) && OrderlyRun(cfg, s1, meanwhile) && InCall(cfg, s1, meanwhile, t)
    && After(cfg, s1, meanwhile).threads[t] == Allocating(uid, [])
  }

  ghost function AfterSuccess(cfg: Config, s: State, t: int, uid: string, reqs: seq<Request>,
                              meanwhile: seq<Action>): State
    requires Succeeds(cfg, s, t, uid, reqs, meanwhile)
  {
    Return(After(cfg, Next(cfg, s, BeginPrepare(t, uid, reqs)), meanwhile), t)
  }

  lemma BeginIsProgress(cfg: Config, s: State, t: int, uid: string, reqs: seq<Request>)
    requires WellFormed(cfg, s) && Isolated(s) && OneCallEach(s)
    requires Enabled(s, BeginPrepare(t, uid, reqs)) && Orderly(s, BeginPrepare(t, uid, reqs))
    ensures var s1 := Next(cfg, s, BeginPrepare(t, uid, reqs));
      WellFormed(cfg, s1) && Isolated(s1) && OneCallEach(s1) && Progress(cfg, s1, t, uid, reqs)
  {
    var a := BeginPrepare(t, uid, reqs);
    StepKeepsForm(cfg, s, a);
    StepKeepsIsolation(cfg, s, a);
    StepKeepsOneCallEach(cfg, s, a);
    assert reqs[0..] == reqs;
    assert Working(cfg, Next(cfg, s, a), Allocating(uid, reqs), uid, reqs, 0);
  }

  /** When a prepare returns success, whatever it ran beside and whatever happened to the
      claim before: every domain it asked for has a written group of the claim with the
      ways of the last request for that domain, which nobody else holds, and the last
      request is on record. */
  lemma SuccessfulPrepareIsWritten(cfg: Config, s: State, t: int, uid: string, reqs: seq<Request>,
                                   meanwhile: seq<Action>)
    requires NamesOk(cfg) && WellFormed(cfg, s) && Isolated(s) && OneCallEach(s)
    requires Succeeds(cfg, s, t, uid, reqs, meanwhile)
    ensures var s' := AfterSuccess(cfg, s, t, uid, reqs, meanwhile);
      && (forall j: nat | LastOf(reqs, |reqs|, j) :: Served(cfg, s', uid, reqs[j]))
      && uid in s'.table && Written(s'.fs, s'.table[uid])
      && s'.table[uid].dom == reqs[|reqs| - 1].dom && s'.table[uid].ways == reqs[|reqs| - 1].ways
      && OneCallEach(s') && Idle(s', uid)
  {
    var s1 := Next(cfg, s, BeginPrepare(t, uid, reqs));
    BeginIsProgress(cfg, s, t, uid, reqs);
    CallProgresses(cfg, s1, meanwhile, t, uid, reqs);
    var s2 := After(cfg, s1, meanwhile);
    DoneIsServed(cfg, s2, t, uid, reqs);
    ReturnIsIdle(s2, t, uid);
    ReturnIsServed(cfg, s2, t, uid, reqs);
  }

  /** Returning gives nothing away. */
  lemma ReturnIsServed(cfg: Config, s: State, t: int, uid: string, reqs: seq<Request>)
    requires t in s.threads && s.threads[t].Allocating?
    ensures forall r | Served(cfg, s, uid, r) :: Served(cfg, Return(s, t), uid, r)
  {
    forall r | Served(cfg, s, uid, r) ensures Served(cfg, Return(s, t), uid, r) {
      var g :| GrantOk(cfg, g, uid) && g.dom == r.dom && g.ways == r.ways && Written(s.fs, g) && Exclusive(s, uid, g);
      OtherThreads(s, Return(s, t), t);
      assert Exclusive(Return(s, t), uid, g);
    }
  }

  lemma DoneIsServed(cfg: Config, s: State, t: int, uid: string, reqs: seq<Request>)
    requires Progress(cfg, s, t, uid, reqs) && s.threads[t] == Allocating(uid, []) && reqs != []
    ensures forall j: nat | LastOf(reqs, |reqs|, j) :: Served(cfg, s, uid, reqs[j])
    ensures uid in s.table && Written(s.fs, s.table[uid])
    ensures s.table[uid].dom == reqs[|reqs| - 1].dom && s.table[uid].ways == reqs[|reqs| - 1].ways
  {
    var i: nat :| Working(cfg, s, s.threads[t], uid, reqs, i);
    assert reqs[i..] == [];
    assert i == |reqs|;
  }

  lemma ReturnIsIdle(s: State, t: int, uid: string)
    requires OneCallEach(s) && t in s.threads && s.threads[t].uid == uid
    ensures OneCallEach(Return(s, t)) && Idle(Return(s, t), uid)
  {
  }

  lemma SuccessKeepsInvariants(cfg: Config, s: State, t: int, uid: string, reqs: seq<Request>, meanwhile: seq<Action>)
    requires WellFormed(cfg, s) && Isolated(s) && Succeeds(cfg, s, t, uid, reqs, meanwhile)
    ensures var s' := AfterSuccess(cfg, s, t, uid, reqs, meanwhile);
      WellFormed(cfg, s') && Isolated(s')
  {
    var begin, end := BeginPrepare(t, uid, reqs), Advance(t, true);
    var s1 := Next(cfg, s, begin);
    StepKeepsForm(cfg, s, begin);
    StepKeepsIsolation(cfg, s, begin);
    AlwaysWellFormed(cfg, s1, meanwhile);
    StaysIsolated(cfg, s1, meanwhile);
    var s2 := After(cfg, s1, meanwhile);
    assert Next(cfg, s2, end) == Return(s2, t);
    StepKeepsForm(cfg, s2, end);
    StepKeepsIsolation(cfg, s2, end);
  }

  /** Crash safety for a prepared claim: once its prepare has returned success, and until
      the next call for this claim, no run of other calls and crashes, in any number and
      order and with any failures of their files, ever leads to one of the ways in its
      groups being handed out again, as long as restarts can read the group. */
  lemma PreparedClaimKeepsItsWays(cfg: Config, s: State, t: int, uid: string, reqs: seq<Request>,
                                  meanwhile: seq<Action>, after: seq<Action>, j: nat) returns (g: Grant)
    requires NamesOk(cfg) && WellFormed(cfg, s) && Isolated(s) && OneCallEach(s)
    requires Succeeds(cfg, s, t, uid, reqs, meanwhile) && LastOf(reqs, |reqs|, j)
    requires Possible(cfg, AfterSuccess(cfg, s, t, uid, reqs, meanwhile), after)
    requires RunNotAbout(after, uid) && Readable(after, cfg.groupOf(reqs[j].dom, uid))
    ensures g.dom == reqs[j].dom && g.ways == reqs[j].ways && g.group == cfg.groupOf(g.dom, uid)
    ensures var s' := After(cfg, AfterSuccess(cfg, s, t, uid, reqs, meanwhile), after);
      Written(s'.fs, g) && GrantSlots(g) <= s'.used && NotHandedOut(cfg, s', g)
  {
    var s1 := AfterSuccess(cfg, s, t, uid, reqs, meanwhile);
    SuccessfulPrepareIsWritten(cfg, s, t, uid, reqs, meanwhile);
    SuccessKeepsInvariants(cfg, s, t, uid, reqs, meanwhile);
    g :| GrantOk(cfg, g, uid) && g.dom == reqs[j].dom && g.ways == reqs[j].ways
      && Written(s1.fs, g) && Exclusive(s1, uid, g);
    ReadableRunFinds(cfg, s1, after, uid, g);
    WrittenGroupKeepsItsWays(cfg, s1, uid, g, after);
  }

  /** The hypotheses on the state hold wherever a driver gets from any boot, as long as
      calls for one claim follow one another. */
  lemma ReachedInvariants(cfg: Config, fs: map<string, seq<Entry>>, unreadable: set<string>, run: seq<Action>)
    requires Possible(cfg, Boot(fs, unreadable), run) && OrderlyRun(cfg, Boot(fs, unreadable), run)
    ensures var s := After(cfg, Boot(fs, unreadable), run);
      WellFormed(cfg, s) && Isolated(s) && OneCallEach(s)
  {
    AlwaysIsolated(cfg, fs, unreadable, run);
    AlwaysWellFormed(cfg, Boot(fs, unreadable), run);
    AlwaysOneCallEach(cfg, Boot(fs, unreadable), run);
  }
}
