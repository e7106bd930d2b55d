/** Isolation over all interleavings, and exact accounting of every way. */
module Isolation {
  import opened Slots
  import opened Schemata
  import opened Protocol

  // ----- the four ways a step can change the holdings

  /** Nobody's holding changes. */
  ghost predicate Quiet(s: State, s': State) {
    s'.used == s.used && forall h :: Held(s', h) == Held(s, h)
  }

  /** x takes ways that nobody used. */
  ghost predicate Takes(s: State, s': State, x: Holder, ways: set<Slot>) {
    && Held(s, x) == {} && Held(s', x) == ways && ways !! s.used
    && s'.used == s.used + ways
    && forall h :: h != x ==> Held(s', h) == Held(s, h)
  }

  /** x returns what it holds to the free ways. */
  ghost predicate Returns(s: State, s': State, x: Holder) {
    && Held(s', x) == {}
    && s'.used == s.used - Held(s, x)
    && forall h :: h != x ==> Held(s', h) == Held(s, h)
  }

  /** x hands its ways to y, which forgets its own. */
  ghost predicate Hands(s: State, s': State, x: Holder, y: Holder) {
    && x != y && Held(s', x) == {} && Held(s', y) == Held(s, x)
    && s'.used == s.used
    && forall h :: h != x && h != y ==> Held(s', h) == Held(s, h)
  }

  lemma QuietKeeps(s: State, s': State)
    requires Isolated(s) && Quiet(s, s')
    ensures Isolated(s')
  {
  }

  lemma TakesKeeps(s: State, s': State, x: Holder, ways: set<Slot>)
    requires Isolated(s) && Takes(s, s', x, ways)
    ensures Isolated(s')
  {
    forall h, k | h != k ensures Held(s', h) !! Held(s', k) {
      assert Held(s, h) <= s.used && Held(s, k) <= s.used;
    }
  }

  lemma ReturnsKeeps(s: State, s': State, x: Holder)
    requires Isolated(s) && Returns(s, s', x)
    ensures Isolated(s')
  {
    forall h ensures Held(s', h) <= s'.used {
      if h != x { assert Held(s, h) !! Held(s, x); }
    }
  }

  lemma HandsKeeps(s: State, s': State, x: Holder, y: Holder)
    requires Isolated(s) && Hands(s, s', x, y)
    ensures Isolated(s')
  {
    forall h, k | h != k ensures Held(s', h) !! Held(s', k) {
      if h == y {
        assert k != x ==> Held(s, x) !! Held(s, k);
      } else if k == y {
        assert h != x ==> Held(s, x) !! Held(s, h);
      }
    }
  }

  // ----- which step does which

  lemma OtherThreads(s: State, s': State, t: int)
    requires s'.table == s.table
    requires forall u :: u != t ==> (u in s.threads <==> u in s'.threads)
    requires forall u :: u != t && u in s.threads ==> s.threads[u] == s'.threads[u]
    ensures forall h :: h != InThread(t) ==> Held(s', h) == Held(s, h)
  {
  }

  lemma OneEntryAndThread(s: State, s': State, t: int, uid: string)
    requires forall v :: v != uid ==> (v in s.table <==> v in s'.table)
    requires forall v :: v != uid && v in s.table ==> s.table[v] == s'.table[v]
    requires forall u :: u != t ==> (u in s.threads <==> u in s'.threads)
    requires forall u :: u != t && u in s.threads ==> s.threads[u] == s'.threads[u]
    ensures forall h :: h != InThread(t) && h != InTable(uid) ==> Held(s', h) == Held(s, h)
  {
  }

  /** A grant about to be recorded over an older grant of the same claim. */
  ghost function Overwritten(s: State, a: Action): set<Slot> {
    if a.Advance? && a.t in s.threads && s.threads[a.t].Recording?
    then Held(s, InTable(s.threads[a.t].uid)) else {}
  }

  /** Which of the four a step is. */
  ghost predicate HasEffect(cfg: Config, s: State, a: Action)
    requires Enabled(s, a) && !a.Crash?
  {
    var s' := Next(cfg, s, a);
    if !a.Advance? then Quiet(s, s') else
      var th, x := s.threads[a.t], InThread(a.t);
      if th.Recording? then Hands(s, s', x, InTable(th.uid))
      else if th.Forgetting? && th.uid in s.table then Hands(s, s', InTable(th.uid), x) && Held(s, x) == {}
      else if th.GivingBack? || th.Freeing? then Returns(s, s', x)
      else if th.Allocating? && a.t in s'.threads then Takes(s, s', x, Held(s', x))
      else Quiet(s, s')
  }

  lemma RecordEffect(cfg: Config, s: State, a: Action)
    requires Enabled(s, a) && a.Advance? && s.threads[a.t].Recording?
    ensures Hands(s, Next(cfg, s, a), InThread(a.t), InTable(s.threads[a.t].uid))
  {
    OneEntryAndThread(s, Next(cfg, s, a), a.t, s.threads[a.t].uid);
  }

  lemma ForgetEffect(cfg: Config, s: State, a: Action)
    requires Enabled(s, a) && a.Advance? && s.threads[a.t].Forgetting? && s.threads[a.t].uid in s.table
    ensures Hands(s, Next(cfg, s, a), InTable(s.threads[a.t].uid), InThread(a.t)) && Held(s, InThread(a.t)) == {}
  {
    OneEntryAndThread(s, Next(cfg, s, a), a.t, s.threads[a.t].uid);
  }

  lemma GiveBackEffect(cfg: Config, s: State, a: Action)
    requires Enabled(s, a) && a.Advance? && (s.threads[a.t].GivingBack? || s.threads[a.t].Freeing?)
    ensures Returns(s, Next(cfg, s, a), InThread(a.t))
  {
    OtherThreads(s, Next(cfg, s, a), a.t);
  }

  lemma AllocateEffect(cfg: Config, s: State, a: Action)
    requires Enabled(s, a) && a.Advance? && s.threads[a.t].Allocating? && a.t in Next(cfg, s, a).threads
    ensures Takes(s, Next(cfg, s, a), InThread(a.t), Held(Next(cfg, s, a), InThread(a.t)))
  {
    var r := s.threads[a.t].todo[0];
    GrantIsFree(cfg.totals, s.used, r.dom, r.ways);
    OtherThreads(s, Next(cfg, s, a), a.t);
  }

  /** Steps on files only move the call forward with what it holds. */
  lemma FileStepEffect(cfg: Config, s: State, a: Action)
    requires Enabled(s, a) && a.Advance? && OnFiles(s.threads[a.t])
    ensures Quiet(s, Next(cfg, s, a))
  {
    assert ThreadAfter(s.threads[a.t], a.ok).grant == s.threads[a.t].grant;
    OtherThreads(s, Next(cfg, s, a), a.t);
  }

  lemma StepEffect(cfg: Config, s: State, a: Action)
    requires Enabled(s, a) && !a.Crash?
    ensures HasEffect(cfg, s, a)
  {
    var s' := Next(cfg, s, a);
    if !a.Advance? {
      OtherThreads(s, s', a.t);
    } else {
      var th := s.threads[a.t];
      if th.Recording? {
        RecordEffect(cfg, s, a);
      } else if th.Forgetting? && th.uid in s.table {
        ForgetEffect(cfg, s, a);
      } else if th.GivingBack? || th.Freeing? {
        GiveBackEffect(cfg, s, a);
      } else if th.Allocating? && a.t in s'.threads {
        AllocateEffect(cfg, s, a);
      } else if th.Allocating? || th.Forgetting? {
        OtherThreads(s, s', a.t);
      } else {
        FileStepEffect(cfg, s, a);
      }
    }
  }

  /** Isolation survives every step of every call, whatever the files do, and a crash. */
  lemma StepKeepsIsolation(cfg: Config, s: State, a: Action)
    requires Isolated(s) && Enabled(s, a)
    ensures Isolated(Next(cfg, s, a))
  {
    var s' := Next(cfg, s, a);
    if a.Crash? {
      assert forall h :: Held(s', h) == {};
    } else {
      StepEffect(cfg, s, a);
      if Quiet(s, s') {
        QuietKeeps(s, s');
      } else {
        var th, x := s.threads[a.t], InThread(a.t);
        if th.Recording? {
          HandsKeeps(s, s', x, InTable(th.uid));
        } else if th.Forgetting? {
          HandsKeeps(s, s', InTable(th.uid), x);
        } else if th.Allocating? {
          TakesKeeps(s, s', x, Held(s', x));
        } else {
          ReturnsKeeps(s, s', x);
        }
      }
    }
  }

  lemma BootIsIsolated(fs: map<string, seq<Entry>>, unreadable: set<string>)
    ensures Isolated(Boot(fs, unreadable))
  {
    assert forall h :: Held(Boot(fs, unreadable), h) == {};
  }

  lemma {:induction false} StaysIsolated(cfg: Config, s: State, run: seq<Action>)
    requires Isolated(s) && Possible(cfg, s, run)
    ensures Isolated(After(cfg, s, run))
    decreases |run|
  {
    if |run| != 0 {
      var before := run[..|run| - 1];
      StaysIsolated(cfg, s, before);
      StepKeepsIsolation(cfg, After(cfg, s, before), run[|run| - 1]);
    }
  }

  /** Isolation: from any start, under every interleaving of calls, every outcome of
      every file operation, repeated prepares, multi-device claims and any number of
      crashes, the recorded allocations and the calls in flight never share a way
      and hold only ways the allocator counts as used. */
  lemma AlwaysIsolated(cfg: Config, fs: map<string, seq<Entry>>, unreadable: set<string>, run: seq<Action>)
    requires Possible(cfg, Boot(fs, unreadable), run)
    ensures Isolated(After(cfg, Boot(fs, unreadable), run))
  {
    BootIsIsolated(fs, unreadable);
    StaysIsolated(cfg, Boot(fs, unreadable), run);
  }

  // ----- accounting

  ghost predicate IsHeld(s: State, slot: Slot) {
    exists h :: slot in Held(s, h)
  }

  /** Used ways that nobody holds any more. */
  ghost function Leaked(s: State): set<Slot> {
    set slot | slot in s.used && !IsHeld(s, slot)
  }

  /** Used ways that a record or a call in flight holds. */
  ghost function AllHeld(s: State): set<Slot> {
    set slot | slot in s.used && IsHeld(s, slot)
  }

  lemma UsedSplits(s: State)
    ensures s.used == AllHeld(s) + Leaked(s) && AllHeld(s) !! Leaked(s)
  {
  }

  lemma QuietLeak(s: State, s': State)
    requires Quiet(s, s')
    ensures Leaked(s') == Leaked(s)
  {
    forall slot ensures IsHeld(s, slot) <==> IsHeld(s', slot) {
      assert forall h :: slot in Held(s, h) <==> slot in Held(s', h);
    }
  }

  lemma TakesLeak(s: State, s': State, x: Holder, ways: set<Slot>)
    requires Isolated(s) && Takes(s, s', x, ways)
    ensures Leaked(s') == Leaked(s)
  {
    forall slot ensures slot in Leaked(s') <==> slot in Leaked(s) {
      if slot in ways {
        assert slot in Held(s', x);
      } else {
        assert forall h :: slot in Held(s, h) <==> slot in Held(s', h);
      }
    }
  }

  lemma ReturnsLeak(s: State, s': State, x: Holder)
    requires Isolated(s) && Returns(s, s', x)
    ensures Leaked(s') == Leaked(s)
  {
    forall slot ensures slot in Leaked(s') <==> slot in Leaked(s) {
      if slot !in Held(s, x) {
        assert forall h :: slot in Held(s, h) <==> slot in Held(s', h);
      }
    }
  }

  lemma HandsLeak(s: State, s': State, x: Holder, y: Holder)
    requires Isolated(s) && Hands(s, s', x, y)
    ensures Leaked(s') == Leaked(s) + Held(s, y) && Leaked(s) !! Held(s, y)
  {
    forall slot ensures slot in Leaked(s') <==> slot in Leaked(s) || slot in Held(s, y) {
      if slot in Held(s, y) {
        forall h ensures slot !in Held(s', h) {
          assert h != y ==> Held(s, h) !! Held(s, y);
        }
      } else if slot in Held(s, x) {
        assert slot in Held(s', y);
      } else {
        assert forall h :: slot in Held(s, h) <==> slot in Held(s', h);
      }
    }
  }

  /** Every step accounts for every way: only recording over an older grant of the
      same claim loses ways, exactly the older grant's, and only a crash changes the
      loss otherwise. */
  lemma StepAccounting(cfg: Config, s: State, a: Action)
    requires Isolated(s) && Enabled(s, a)
    ensures var s' := Next(cfg, s, a);
      && (!a.Crash? ==> Leaked(s') == Leaked(s) + Overwritten(s, a) && Leaked(s) !! Overwritten(s, a))
      && (a.Crash? ==> Leaked(s') == s'.used)
  {
    var s' := Next(cfg, s, a);
    if a.Crash? {
      assert forall h :: Held(s', h) == {};
    } else {
      StepEffect(cfg, s, a);
      if !a.Advance? {
        QuietLeak(s, s');
      } else {
        var th, x := s.threads[a.t], InThread(a.t);
        if th.Recording? {
          HandsLeak(s, s', x, InTable(th.uid));
        } else if th.Forgetting? && th.uid in s.table {
          HandsLeak(s, s', InTable(th.uid), x);
        } else if th.GivingBack? || th.Freeing? {
          ReturnsLeak(s, s', x);
        } else if th.Allocating? && a.t in s'.threads {
          TakesLeak(s, s', x, Held(s', x));
        } else {
          QuietLeak(s, s');
        }
      }
    }
  }
}
