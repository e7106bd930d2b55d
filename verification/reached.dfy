/** Every pattern of used ways is reached by a run of prepares and unprepares, so the
  fragmentation bound is attained by a running driver. */
module Reached {
  import opened Results
  import opened Words
  import opened Windows
  import opened Slots
  import opened GoText
  import opened Names
  import opened Protocol
  import opened Reservation
  import opened Scenarios
  import opened Sharing

  // ----- one claim per way

  /** The claim that takes way i. */
  function Claim(i: nat): string
    requires i < WORD
  {
    seq(36, j requires 0 <= j < 36 =>
      if HyphenAt(j) then '-' else if j == 0 then DigitChar(i / 16) else if j == 1 then DigitChar(i % 16) else '0')
  }

  lemma ClaimIsUUID(i: nat)
    requires i < WORD
    ensures IsUUID(Claim(i))
  {
    DigitRoundTrip(i / 16);
    DigitRoundTrip(i % 16);
  }

  lemma ClaimsDiffer(i: nat, j: nat)
    requires i < WORD && j < WORD && Claim(i) == Claim(j)
    ensures i == j
  {
    assert Claim(i)[0] == DigitChar(i / 16) && Claim(i)[1] == DigitChar(i % 16);
    assert Claim(j)[0] == DigitChar(j / 16) && Claim(j)[1] == DigitChar(j % 16);
    DigitRoundTrip(i / 16);
    DigitRoundTrip(i % 16);
    DigitRoundTrip(j / 16);
    DigitRoundTrip(j % 16);
  }

  function GrantAt(cfg: Config, dom: int, i: nat): Grant
    requires i < WORD
  {
    Grant(dom, 1, Mask(i, 1), cfg.groupOf(dom, Claim(i)))
  }

  lemma GrantAtSlots(cfg: Config, dom: int, i: nat)
    requires i < WORD
    ensures GrantSlots(GrantAt(cfg, dom, i)) == {Slot(dom, i)}
  {
    WaysMask(i, 1);
    OneWay(i);
    forall s ensures s in GrantSlots(GrantAt(cfg, dom, i)) <==> s == Slot(dom, i) {
      MaskSlotsMember(dom, Mask(i, 1), s);
    }
  }

  /** At rest, exactly the claims of the ways in `keep` are prepared. */
  ghost predicate Keeps(cfg: Config, s: State, dom: int, keep: set<nat>) {
    && s.threads == map[]
    && (forall i | i in keep :: i < WORD)
    && (forall slot :: slot in s.used <==> slot.dom == dom && slot.way in keep)
    && (forall u :: u in s.table <==> exists i | i in keep :: i < WORD && u == Claim(i))
    && (forall i | i in keep :: Recorded(cfg, s, dom, i))
  }

  ghost predicate Recorded(cfg: Config, s: State, dom: int, i: nat) {
    && i < WORD && Claim(i) in s.table && s.table[Claim(i)] == GrantAt(cfg, dom, i)
    && GrantAt(cfg, dom, i).group in s.fs
  }

  lemma NothingKept(cfg: Config, dom: int)
    ensures Keeps(cfg, Boot(map[], {}), dom, {})
  {
  }

  lemma KeptWays(cfg: Config, s: State, dom: int, keep: set<nat>)
    requires Keeps(cfg, s, dom, keep)
    ensures UsedIn(s.used, dom) == keep
  {
    forall i: nat ensures i in UsedIn(s.used, dom) <==> i in keep {
      UsedInMember(s.used, dom, i);
    }
  }

  lemma OtherClaimOtherGroup(cfg: Config, dom: int, i: nat, j: nat)
    requires NamesOk(cfg) && IsInt64(dom) && i < WORD && j < WORD && i != j
    ensures Claim(i) != Claim(j) && GrantAt(cfg, dom, i).group != GrantAt(cfg, dom, j).group
  {
    ClaimIsUUID(i);
    ClaimIsUUID(j);
    if Claim(i) == Claim(j) { ClaimsDiffer(i, j); }
  }

  // ----- filling and thinning

  /** The next claim gets the next way. */
  lemma PrepareNext(cfg: Config, s: State, dom: int, n: nat)
    requires NamesOk(cfg) && IsInt64(dom) && dom in cfg.totals && n < cfg.totals[dom] <= WORD
    requires Keeps(cfg, s, dom, Prefix(n))
    ensures var run := FullPrepare(0, Claim(n), Request(dom, 1));
      Possible(cfg, s, run) && AllWell(run) && Keeps(cfg, After(cfg, s, run), dom, Prefix(n + 1))
  {
    var r := Request(dom, 1);
    KeptWays(cfg, s, dom, Prefix(n));
    FirstFitAfterPrefix(cfg.totals[dom], n, 1);
    PrepareAlone(cfg, s, 0, Claim(n), r);
    GrantAtSlots(cfg, dom, n);
    PrefixNext(n);
    KeepOneMore(cfg, s, After(cfg, s, FullPrepare(0, Claim(n), r)), dom, Prefix(n), n);
  }

  lemma KeepOneMore(cfg: Config, s: State, s': State, dom: int, keep: set<nat>, n: nat)
    requires NamesOk(cfg) && IsInt64(dom) && Keeps(cfg, s, dom, keep) && n < WORD
    requires var g := GrantAt(cfg, dom, n);
      s' == State(s.used + {Slot(dom, n)}, s.table[Claim(n) := g], s.fs[g.group := GrantEntries(g)], s.threads)
    ensures Keeps(cfg, s', dom, keep + {n})
  {
    forall i | i in keep + {n} ensures Recorded(cfg, s', dom, i) {
      if i != n {
        assert Recorded(cfg, s, dom, i);
        OtherClaimOtherGroup(cfg, dom, i, n);
      }
    }
    forall slot ensures slot in s'.used <==> slot.dom == dom && slot.way in keep + {n} {
      assert slot == Slot(slot.dom, slot.way);
    }
  }

  lemma FillNext(cfg: Config, dom: int, n: nat, first: seq<Action>) returns (run: seq<Action>)
    requires NamesOk(cfg) && IsInt64(dom) && dom in cfg.totals && n < cfg.totals[dom] <= WORD
    requires Possible(cfg, Boot(map[], {}), first) && AllWell(first)
    requires Keeps(cfg, After(cfg, Boot(map[], {}), first), dom, Prefix(n))
    ensures Possible(cfg, Boot(map[], {}), run) && AllWell(run)
    ensures Keeps(cfg, After(cfg, Boot(map[], {}), run), dom, Prefix(n + 1))
  {
    var next := FullPrepare(0, Claim(n), Request(dom, 1));
    PrepareNext(cfg, After(cfg, Boot(map[], {}), first), dom, n);
    AppendWell(cfg, Boot(map[], {}), first, next);
    run := first + next;
  }

  lemma EmptyPrefix()
    ensures Prefix(0) == {}
  {
    forall i: nat ensures !Below(0, i) { }
  }

  lemma {:induction false} Fill(cfg: Config, dom: int, n: nat) returns (run: seq<Action>)
    requires NamesOk(cfg) && IsInt64(dom) && dom in cfg.totals && n <= cfg.totals[dom] <= WORD
    ensures Possible(cfg, Boot(map[], {}), run) && AllWell(run)
    ensures Keeps(cfg, After(cfg, Boot(map[], {}), run), dom, Prefix(n))
  {
    if n == 0 {
      run := [];
      NothingKept(cfg, dom);
      EmptyPrefix();
    } else {
      run := Fill(cfg, dom, n - 1);
      run := FillNext(cfg, dom, n - 1, run);
    }
  }

  lemma UnprepareOne(cfg: Config, s: State, dom: int, keep: set<nat>, i: nat)
    requires NamesOk(cfg) && IsInt64(dom) && Keeps(cfg, s, dom, keep) && i in keep
    ensures i < WORD
    ensures var run := FullUnprepare(0, Claim(i));
      Possible(cfg, s, run) && AllWell(run) && Keeps(cfg, After(cfg, s, run), dom, keep - {i})
  {
    assert Recorded(cfg, s, dom, i);
    UnprepareAlone(cfg, s, 0, Claim(i));
    GrantAtSlots(cfg, dom, i);
    KeepOneLess(cfg, s, After(cfg, s, FullUnprepare(0, Claim(i))), dom, keep, i);
  }

  lemma KeepOneLess(cfg: Config, s: State, s': State, dom: int, keep: set<nat>, n: nat)
    requires NamesOk(cfg) && IsInt64(dom) && Keeps(cfg, s, dom, keep) && n in keep && n < WORD
    requires var g := GrantAt(cfg, dom, n);
      s' == State(s.used - {Slot(dom, n)}, s.table - {Claim(n)}, s.fs - {g.group}, s.threads)
    ensures Keeps(cfg, s', dom, keep - {n})
  {
    forall i | i in keep - {n} ensures Recorded(cfg, s', dom, i) {
      assert Recorded(cfg, s, dom, i);
      OtherClaimOtherGroup(cfg, dom, i, n);
    }
    forall slot ensures slot in s'.used <==> slot.dom == dom && slot.way in keep - {n} {
      assert slot == Slot(slot.dom, slot.way);
    }
    forall u ensures u in s'.table <==> exists i | i in keep - {n} :: i < WORD && u == Claim(i) {
      if u in s'.table {
        var i :| i in keep && i < WORD && u == Claim(i);
        assert i in keep - {n};
      }
      forall i | i in keep - {n} && u == Claim(i) ensures u in s'.table {
        OtherClaimOtherGroup(cfg, dom, i, n);
      }
    }
  }

  /** Unpreparing the claims that are not wanted, one by one. */
  lemma {:induction false} Thin(cfg: Config, s: State, dom: int, keep: set<nat>, wanted: set<nat>)
    returns (run: seq<Action>)
    requires NamesOk(cfg) && IsInt64(dom) && Keeps(cfg, s, dom, keep) && wanted <= keep
    ensures Possible(cfg, s, run) && AllWell(run)
    ensures Keeps(cfg, After(cfg, s, run), dom, wanted)
    decreases |keep|
  {
    if i :| i in keep && i !in wanted {
      UnprepareOne(cfg, s, dom, keep, i);
      var first := FullUnprepare(0, Claim(i));
      var rest := Thin(cfg, After(cfg, s, first), dom, keep - {i}, wanted);
      AppendWell(cfg, s, first, rest);
      run := first + rest;
    } else {
      run := [];
      assert keep == wanted;
    }
  }

  /** Every set of ways of a domain is the set in use, each way held by a claim of its
      own, after some run from an empty node. */
  lemma AnyUseIsReached(cfg: Config, dom: int, wanted: set<nat>) returns (run: seq<Action>)
    requires NamesOk(cfg) && IsInt64(dom) && dom in cfg.totals && 0 <= cfg.totals[dom] <= WORD
    requires forall i | i in wanted :: i < cfg.totals[dom]
    ensures Possible(cfg, Boot(map[], {}), run) && AllWell(run)
    ensures Keeps(cfg, After(cfg, Boot(map[], {}), run), dom, wanted)
  {
    var n := cfg.totals[dom];
    var fill := Fill(cfg, dom, n);
    var s := After(cfg, Boot(map[], {}), fill);
    forall i | i in wanted ensures i in Prefix(n) { assert Below(n, i); }
    var thin := Thin(cfg, s, dom, Prefix(n), wanted);
    AppendWell(cfg, Boot(map[], {}), fill, thin);
    run := fill + thin;
  }

  // ----- counting the claims

  ghost function ClaimsOf(keep: set<nat>): set<string>
    requires forall i | i in keep :: i < WORD
  {
    set i | i in keep :: Claim(i)
  }

  lemma {:induction false} ClaimsSize(keep: set<nat>)
    requires forall i | i in keep :: i < WORD
    ensures |ClaimsOf(keep)| == |keep|
    decreases |keep|
  {
    if i :| i in keep {
      ClaimsSize(keep - {i});
      forall j | j in keep - {i} ensures Claim(j) != Claim(i) {
        if Claim(j) == Claim(i) { ClaimsDiffer(i, j); }
      }
      assert ClaimsOf(keep) == ClaimsOf(keep - {i}) + {Claim(i)};
    } else {
      assert ClaimsOf(keep) == {};
    }
  }

  lemma TableSize(cfg: Config, s: State, dom: int, keep: set<nat>)
    requires Keeps(cfg, s, dom, keep)
    ensures |s.table| == |keep|
  {
    ClaimsSize(keep);
    forall u ensures u in s.table.Keys <==> u in ClaimsOf(keep) { }
    assert s.table.Keys == ClaimsOf(keep);
    assert |s.table| == |s.table.Keys|;
  }

  // ----- the bound is attained

  lemma CombSizes(k: nat, ways: nat)
    requires 1 <= ways && (k + 1) * ways - 1 <= WORD
    ensures var used, total := Covered(Comb(k, ways)), (k + 1) * ways - 1;
      (forall i | i in used :: i < total) && |used| == k
  {
    var used, total := Covered(Comb(k, ways)), (k + 1) * ways - 1;
    forall i | i in used ensures i < total {
      var j := CoveredByTooth(k, ways, i);
      ToothBelow(j, k, ways);
    }
    FragmentationBoundIsTight(k, ways);
    FreePlusUsed(used, total);
    forall i | i in used ensures i in Prefix(total) { assert Below(total, i); }
    assert used * Prefix(total) == used;
    assert (k + 1) * ways - 1 - (k + 1) * (ways - 1) == k;
  }

  lemma ToothBelow(j: nat, k: nat, ways: nat)
    requires 1 <= ways && j < k
    ensures Tooth(j, ways).start < (k + 1) * ways - 1
  {
    Scale(j + 1, k, ways);
    assert (j + 1) * ways == j * ways + ways;
  }

  /** For every k and every request size a driver on an empty node reaches a state with
      k prepared claims and exactly (k + 1) * (ways - 1) free ways, at least as many as
      requested when k and ways - 1 are positive, in which the request fails. */
  lemma BoundIsReached(k: nat, ways: nat) returns (run: seq<Action>)
    requires 1 <= ways <= (k + 1) * ways - 1 <= WORD
    ensures var total := (k + 1) * ways - 1;
            var cfg := DriverConfig(map[0 := total]);
      && Possible(cfg, Boot(map[], {}), run)
      && var s := After(cfg, Boot(map[], {}), run);
      && s.threads == map[] && |s.table| == k
      && FreeBelow(UsedIn(s.used, 0), total) == (k + 1) * (ways - 1)
      && AllocateResult(cfg.totals, s.used, 0, ways) == Err(NoRoom)
  {
    var total := (k + 1) * ways - 1;
    DriverNamesOk(map[0 := total]);
    CombSizes(k, ways);
    FragmentationBoundIsTight(k, ways);
    run := PatternIsReached(DriverConfig(map[0 := total]), Covered(Comb(k, ways)), total, ways);
  }

  lemma PatternIsReached(cfg: Config, used: set<nat>, total: nat, ways: nat) returns (run: seq<Action>)
    requires NamesOk(cfg) && cfg.totals == map[0 := total] && 1 <= ways <= total <= WORD
    requires (forall i | i in used :: i < total) && FirstFit(total, used, ways).None?
    ensures Possible(cfg, Boot(map[], {}), run)
    ensures var s := After(cfg, Boot(map[], {}), run);
      && s.threads == map[] && |s.table| == |used| && UsedIn(s.used, 0) == used
      && AllocateResult(cfg.totals, s.used, 0, ways) == Err(NoRoom)
  {
    run := AnyUseIsReached(cfg, 0, used);
    KeptState(cfg, After(cfg, Boot(map[], {}), run), used, total, ways);
  }

  lemma KeptState(cfg: Config, s: State, keep: set<nat>, total: nat, ways: nat)
    requires 1 <= ways <= total && cfg.totals == map[0 := total] && Keeps(cfg, s, 0, keep)
    requires FirstFit(total, keep, ways).None?
    ensures |s.table| == |keep| && s.threads == map[]
    ensures UsedIn(s.used, 0) == keep
    ensures AllocateResult(cfg.totals, s.used, 0, ways) == Err(NoRoom)
  {
    KeptWays(cfg, s, 0, keep);
    TableSize(cfg, s, 0, keep);
  }

  /** In particular one claim in the middle of three ways leaves two free ways, and a
      request for two ways fails. */
  lemma FreeButFragmented() returns (run: seq<Action>)
    ensures var cfg := DriverConfig(map[0 := 3]);
      && Possible(cfg, Boot(map[], {}), run)
      && var s := After(cfg, Boot(map[], {}), run);
      && |s.table| == 1 && FreeBelow(UsedIn(s.used, 0), 3) == 2
      && AllocateResult(cfg.totals, s.used, 0, 2) == Err(NoRoom)
  {
    run := BoundIsReached(1, 2);
  }
}
