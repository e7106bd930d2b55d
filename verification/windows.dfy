/** First-fit search for a run of free ways, on sets of ways.

  This is the specification of the loop in `WayAllocator.Allocate`; the
  fragmentation bound and the packing theorem are about it.
 */
module Windows {
  import opened Results
  import opened Words

  /** No way of [start, start + count) is in use. */
  ghost predicate Free(used: set<nat>, start: int, count: int) {
    Span(start, count) !! used
  }

  // ----- first fit

  ghost function FirstFitFrom(total: int, used: set<nat>, ways: int, start: nat): Option<nat>
    decreases total - ways - start
  {
    if start + ways > total then None
    else if Free(used, start, ways) then Some(start)
    else FirstFitFrom(total, used, ways, start + 1)
  }

  /** Where a request for `ways` consecutive ways is placed, if anywhere. */
  ghost function FirstFit(total: int, used: set<nat>, ways: int): Option<nat> {
    if ways <= 0 || ways > total then None else FirstFitFrom(total, used, ways, 0)
  }

  lemma {:induction false} FirstFitFromIsLeast(total: int, used: set<nat>, ways: int, start: nat)
    ensures var r := FirstFitFrom(total, used, ways, start);
      && (r.Some? ==> start <= r.value && r.value + ways <= total && Free(used, r.value, ways)
                      && forall s: nat | start <= s < r.value :: !Free(used, s, ways))
      && (r.None? ==> forall s: nat | start <= s && s + ways <= total :: !Free(used, s, ways))
    decreases total - ways - start
  {
    if start + ways <= total && !Free(used, start, ways) {
      FirstFitFromIsLeast(total, used, ways, start + 1);
    }
  }

  /** Sound and complete: the least start whose window is free and inside the
      domain, and no grant exactly when the request is outside 1..total or no
      such window exists. */
  lemma FirstFitExact(total: int, used: set<nat>, ways: int)
    ensures var r := FirstFit(total, used, ways);
      && (r.Some? ==> 1 <= ways && r.value + ways <= total && Free(used, r.value, ways)
                      && forall s: nat | s < r.value :: !Free(used, s, ways))
      && (r.None? <==> ways < 1 || forall s: nat | s + ways <= total :: !Free(used, s, ways))
  {
    if 1 <= ways <= total { FirstFitFromIsLeast(total, used, ways, 0); }
  }

  // ----- counting free ways

  /** The free ways among the first n. */
  ghost function FreeBelow(used: set<nat>, n: nat): nat {
    if n == 0 then 0 else FreeBelow(used, n - 1) + if n - 1 in used then 0 else 1
  }

  predicate Below(n: nat, i: nat) {
    i < n
  }

  /** The ways 0, ..., n - 1. */
  ghost function Prefix(n: nat): set<nat> {
    set i: nat | i < n && Below(n, i)
  }

  lemma PrefixNext(n: nat)
    ensures Prefix(n + 1) == Prefix(n) + {n}
  {
    forall i: nat ensures Below(n + 1, i) <==> Below(n, i) || i == n { }
  }

  lemma {:induction false} PrefixSize(n: nat)
    ensures |Prefix(n)| == n
  {
    if n == 0 {
      assert Prefix(n) == {};
    } else {
      PrefixSize(n - 1);
      PrefixNext(n - 1);
    }
  }

  /** Free and used ways split the domain. */
  lemma {:induction false} FreePlusUsed(used: set<nat>, n: nat)
    ensures FreeBelow(used, n) + |used * Prefix(n)| == n
  {
    if n == 0 {
      assert used * Prefix(0) == {};
    } else {
      FreePlusUsed(used, n - 1);
      PrefixNext(n - 1);
      if n - 1 in used {
        assert used * Prefix(n) == used * Prefix(n - 1) + {n - 1};
      } else {
        assert used * Prefix(n) == used * Prefix(n - 1);
      }
    }
  }

  // ----- fragmentation

  /** One outstanding contiguous allocation. */
  datatype Window = Window(start: nat, ways: nat)

  ghost function Covered(ws: set<Window>): set<nat> {
    set w, i | w in ws && i in Span(w.start, w.ways) :: i
  }

  /** Length of the free run that ends just below n. */
  ghost function RunBefore(used: set<nat>, n: nat): nat {
    if n == 0 || n - 1 in used then 0 else RunBefore(used, n - 1) + 1
  }

  /** Way i begins a run of used ways. */
  predicate Begins(used: set<nat>, i: nat) {
    i in used && (i == 0 || i - 1 !in used)
  }

  /** The ways below n that begin a run of used ways. */
  ghost function Edges(used: set<nat>, n: nat): set<nat> {
    set i | i in used && i < n && Begins(used, i)
  }

  lemma {:induction false} RunIsFree(used: set<nat>, n: nat)
    ensures RunBefore(used, n) <= n
    ensures forall i: nat | n - RunBefore(used, n) <= i < n :: i !in used
  {
    if n != 0 && n - 1 !in used { RunIsFree(used, n - 1); }
  }

  lemma LongRunFits(used: set<nat>, n: nat, ways: nat)
    requires ways <= RunBefore(used, n)
    ensures ways <= n && Free(used, n - ways, ways)
  {
    RunIsFree(used, n);
    forall i | i in Span(n - ways, ways) ensures i !in used {
      assert Within(n - ways, ways, i);
    }
  }

  lemma NextEdge(used: set<nat>, n: nat)
    ensures |Edges(used, n + 1)| == |Edges(used, n)| + if Begins(used, n) then 1 else 0
  {
    if Begins(used, n) {
      assert Edges(used, n + 1) == Edges(used, n) + {n};
    } else {
      assert Edges(used, n + 1) == Edges(used, n);
    }
  }

  lemma NextMultiple(k: nat, c: nat)
    ensures (k + 1) * c == k * c + c
  {
  }

  /** Pigeonhole: with every free run shorter than `ways`, each edge and the end
      of the domain account for at most ways - 1 free ways. */
  lemma {:induction false} FreeIsInShortRuns(used: set<nat>, n: nat, ways: nat)
    requires 1 <= ways
    requires forall m: nat | m <= n :: RunBefore(used, m) < ways
    ensures FreeBelow(used, n) <= |Edges(used, n)| * (ways - 1) + RunBefore(used, n)
  {
    if n == 0 {
      assert Edges(used, 0) == {};
    } else {
      FreeIsInShortRuns(used, n - 1, ways);
      NextEdge(used, n - 1);
      NextMultiple(|Edges(used, n - 1)|, ways - 1);
      assert RunBefore(used, n - 1) < ways;
      assert n - 1 in used && !Begins(used, n - 1) ==> RunBefore(used, n - 1) == 0;
    }
  }

  ghost function Starts(ws: set<Window>): set<nat> {
    set w | w in ws :: w.start
  }

  lemma {:induction false} StartsSize(ws: set<Window>)
    ensures |Starts(ws)| <= |ws|
  {
    if ws == {} {
      assert Starts(ws) == {};
    } else {
      var w :| w in ws;
      StartsSize(ws - {w});
      assert Starts(ws) == Starts(ws - {w}) + {w.start};
    }
  }

  lemma SubsetSize(a: set<nat>, b: set<nat>)
    requires a <= b
    ensures |a| <= |b|
  {
    if a != b { assert a + (b - a) == b; }
  }

  lemma CoveredBefore(ws: set<Window>, w: Window, i: nat)
    requires w in ws && i in Span(w.start, w.ways) && w.start < i
    ensures i - 1 in Covered(ws)
  {
    assert Within(w.start, w.ways, i);
    var j: nat := i - 1;
    assert Within(w.start, w.ways, j);
    assert j in Span(w.start, w.ways);
  }

  lemma EdgesAreStarts(ws: set<Window>, n: nat)
    ensures Edges(Covered(ws), n) <= Starts(ws)
  {
    forall i | i in Edges(Covered(ws), n) ensures i in Starts(ws) {
      var w :| w in ws && i in Span(w.start, w.ways);
      assert Within(w.start, w.ways, i);
      if w.start != i { CoveredBefore(ws, w, i); }
    }
  }

  lemma NoLongRunFewFree(total: nat, ws: set<Window>, ways: nat)
    requires 1 <= ways
    requires forall m: nat | m <= total :: RunBefore(Covered(ws), m) < ways
    ensures FreeBelow(Covered(ws), total) <= (|ws| + 1) * (ways - 1)
  {
    var edges := |Edges(Covered(ws), total)|;
    FreeIsInShortRuns(Covered(ws), total, ways);
    EdgesAreStarts(ws, total);
    StartsSize(ws);
    SubsetSize(Edges(Covered(ws), total), Starts(ws));
    Scale(edges, |ws|, ways - 1);
  }

  lemma Scale(a: nat, b: nat, c: nat)
    requires a <= b
    ensures a * c + c <= (b + 1) * c
  {
    assert (b - a) * c >= 0;
    assert (b + 1) * c == a * c + (b - a) * c + c;
  }

  /** With k outstanding contiguous allocations, a request for `ways` ways is
      granted whenever more than (k + 1) * (ways - 1) ways are free. */
  lemma FragmentationBound(total: nat, ws: set<Window>, ways: nat)
    requires 1 <= ways
    requires FreeBelow(Covered(ws), total) > (|ws| + 1) * (ways - 1)
    ensures FirstFit(total, Covered(ws), ways).Some?
  {
    var used := Covered(ws);
    if r :| 0 <= r <= total && ways <= RunBefore(used, r) {
      LongRunFits(used, r, ways);
      var s: nat := r - ways;
      FirstFitExact(total, used, ways);
      assert s + ways <= total && Free(used, s, ways);
    } else {
      NoLongRunFewFree(total, ws, ways);
    }
  }

  /** The bound with at most k windows. */
  lemma FragmentationBoundFor(total: nat, used: set<nat>, ws: set<Window>, k: nat, ways: nat)
    requires 1 <= ways && used == Covered(ws) && |ws| <= k
    requires FreeBelow(used, total) > (k + 1) * (ways - 1)
    ensures FirstFit(total, used, ways).Some? && ways <= total
  {
    Scale(|ws|, k, ways - 1);
    NextMultiple(|ws|, ways - 1);
    FragmentationBound(total, ws, ways);
    FirstFitExact(total, used, ways);
  }

  // ----- the bound cannot be improved

  /** k single ways spread so that every gap holds ways - 1 free ways. */
  ghost function Comb(k: nat, ways: nat): set<Window>
    requires 1 <= ways
  {
    if k == 0 then {} else Comb(k - 1, ways) + {Tooth(k - 1, ways)}
  }

  ghost function Tooth(j: nat, ways: nat): Window
    requires 1 <= ways
  {
    Window(j * ways + (ways - 1), 1)
  }

  lemma Position(i: nat, q: nat, r: nat, ways: nat)
    requires r < ways && i == q * ways + r
    ensures i / ways == q && i % ways == r
  {
    var d, w: int := i / ways - q, ways;
    assert w * d == r - i % ways;
    assert d >= 1 ==> w * d >= w;
    assert d <= -1 ==> w * d <= -w;
  }

  lemma TeethDiffer(i: nat, j: nat, ways: nat)
    requires 1 <= ways && i != j
    ensures Tooth(i, ways) != Tooth(j, ways)
  {
    Position(Tooth(i, ways).start, i, ways - 1, ways);
    Position(Tooth(j, ways).start, j, ways - 1, ways);
  }

  lemma {:induction false} CombSize(k: nat, ways: nat)
    requires 1 <= ways
    ensures |Comb(k, ways)| == k
    ensures forall w | w in Comb(k, ways) :: exists j: nat | j < k :: w == Tooth(j, ways)
  {
    if k != 0 {
      CombSize(k - 1, ways);
      forall j: nat | j < k - 1 ensures Tooth(j, ways) != Tooth(k - 1, ways) {
        TeethDiffer(j, k - 1, ways);
      }
    }
  }

  lemma {:induction false} ToothInComb(j: nat, k: nat, ways: nat)
    requires 1 <= ways && j < k
    ensures Tooth(j, ways) in Comb(k, ways)
  {
    if j != k - 1 { ToothInComb(j, k - 1, ways); }
  }

  lemma ToothCovers(k: nat, ways: nat, j: nat)
    requires 1 <= ways && j < k && Tooth(j, ways).start < WORD
    ensures Tooth(j, ways).start in Covered(Comb(k, ways))
  {
    var w := Tooth(j, ways);
    ToothInComb(j, k, ways);
    assert Within(w.start, w.ways, w.start);
    assert w.start in Span(w.start, w.ways);
  }

  lemma CoveredByTooth(k: nat, ways: nat, i: nat) returns (j: nat)
    requires 1 <= ways && i in Covered(Comb(k, ways))
    ensures j < k && i == Tooth(j, ways).start
  {
    CombSize(k, ways);
    var w :| w in Comb(k, ways) && i in Span(w.start, w.ways);
    assert Within(w.start, w.ways, i);
    j :| j < k && w == Tooth(j, ways);
  }

  lemma CombCovers(k: nat, ways: nat, i: nat)
    requires 1 <= ways && i < WORD
    ensures i in Covered(Comb(k, ways)) <==> i % ways == ways - 1 && i / ways < k
  {
    if i in Covered(Comb(k, ways)) {
      var j := CoveredByTooth(k, ways, i);
      Position(i, j, ways - 1, ways);
    } else if i % ways == ways - 1 && i / ways < k {
      assert i == Tooth(i / ways, ways).start;
      ToothCovers(k, ways, i / ways);
    }
  }

  lemma NextQuotient(n: nat, ways: nat)
    requires 1 <= ways
    ensures (n + 1) / ways == n / ways + (if n % ways == ways - 1 then 1 else 0)
  {
    var q, r := n / ways, n % ways;
    assert n == q * ways + r;
    if r == ways - 1 {
      assert n + 1 == (q + 1) * ways + 0;
      Position(n + 1, q + 1, 0, ways);
    } else {
      Position(n + 1, q, r + 1, ways);
    }
  }

  lemma Smaller(a: int, b: int, ways: nat)
    requires 1 <= ways && a * ways < b * ways
    ensures a < b
  {
    assert (b - a) * ways == b * ways - a * ways;
  }

  lemma QuotientBelow(n: nat, k: nat, ways: nat)
    requires 1 <= ways && n < k * ways
    ensures n / ways < k
  {
    assert n == n / ways * ways + n % ways;
    Smaller(n / ways, k, ways);
  }

  lemma LastOfBlock(n: nat, k: nat, ways: nat)
    requires 1 <= ways && n % ways == ways - 1 && n + 1 < (k + 1) * ways
    ensures n / ways < k
  {
    var q := n / ways;
    assert n == q * ways + (ways - 1);
    assert (q + 1) * ways == q * ways + ways;
    Smaller(q + 1, k + 1, ways);
  }

  lemma {:induction false} CombFree(k: nat, ways: nat, n: nat)
    requires 1 <= ways && n <= (k + 1) * ways - 1 <= WORD
    ensures FreeBelow(Covered(Comb(k, ways)), n) == n - n / ways
    decreases n
  {
    if n == 0 {
      Position(0, 0, 0, ways);
    } else {
      CombFree(k, ways, n - 1);
      NextQuotient(n - 1, ways);
      CombCovers(k, ways, n - 1);
      if (n - 1) % ways == ways - 1 { LastOfBlock(n - 1, k, ways); }
    }
  }

  /** For every k and every request size there is a state with k outstanding
      allocations and exactly (k + 1) * (ways - 1) free ways in which the request
      fails: the fragmentation bound is exact. */
  lemma FragmentationBoundIsTight(k: nat, ways: nat)
    requires 1 <= ways && (k + 1) * ways - 1 <= WORD
    ensures var ws := Comb(k, ways);
            var total := (k + 1) * ways - 1;
      && |ws| == k
      && FreeBelow(Covered(ws), total) == (k + 1) * (ways - 1)
      && FirstFit(total, Covered(ws), ways).None?
  {
    var used, total := Covered(Comb(k, ways)), (k + 1) * ways - 1;
    CombSize(k, ways);
    CombFree(k, ways, total);
    assert total == k * ways + (ways - 1);
    Position(total, k, ways - 1, ways);
    forall s: nat | s + ways <= total ensures !Free(used, s, ways) {
      CombBlocks(k, ways, s);
    }
    FirstFitExact(total, used, ways);
  }

  /** The tooth at or after s: less than `ways` away, and one of the k teeth. */
  lemma NextTooth(k: nat, ways: nat, s: nat) returns (j: nat)
    requires 1 <= ways && s + ways <= (k + 1) * ways - 1
    ensures j < k && s <= Tooth(j, ways).start < s + ways
  {
    j := s / ways;
    assert (k + 1) * ways == k * ways + ways;
    QuotientBelow(s, k, ways);
    assert s == j * ways + s % ways;
  }

  lemma CombBlocks(k: nat, ways: nat, s: nat)
    requires 1 <= ways && s + ways <= (k + 1) * ways - 1 <= WORD
    ensures !Free(Covered(Comb(k, ways)), s, ways)
  {
    var j := NextTooth(k, ways, s);
    var i := Tooth(j, ways).start;
    ToothCovers(k, ways, j);
    assert Within(s, ways, i);
    assert i in Span(s, ways);
  }

  // ----- packing without releases

  lemma FreeAbovePrefix(n: nat, start: nat, ways: nat)
    requires n <= WORD && start < WORD && 1 <= ways
    ensures Free(Prefix(n), start, ways) <==> n <= start
  {
    forall i | i in Span(start, ways) ensures start <= i { assert Within(start, ways, i); }
    if start < n {
      assert Within(start, ways, start) && start in Span(start, ways);
      assert Below(n, start);
    }
  }

  /** When the used ways are a prefix, only the size decides: the request goes
      directly after the prefix, and extends it. */
  lemma FirstFitAfterPrefix(total: nat, n: nat, ways: int)
    requires n <= total <= WORD
    ensures FirstFit(total, Prefix(n), ways) == if 1 <= ways <= total - n then Some(n) else None
    ensures 1 <= ways <= total - n ==> Prefix(n) + Span(n, ways) == Prefix(n + ways)
  {
    FirstFitExact(total, Prefix(n), ways);
    if 1 <= ways <= total - n {
      FreeAbovePrefix(n, n, ways);
      var r := FirstFit(total, Prefix(n), ways);
      assert r.Some?;
      FreeAbovePrefix(n, r.value, ways);
      forall i: nat ensures Below(n + ways, i) <==> Below(n, i) || Within(n, ways, i) { }
    } else if 1 <= ways {
      forall s: nat | s + ways <= total ensures !Free(Prefix(n), s, ways) {
        FreeAbovePrefix(n, s, ways);
      }
    }
  }

  lemma {:induction false} FreeBelowPrefix(total: nat, n: nat)
    requires n <= total
    ensures FreeBelow(Prefix(n), total) == total - n
  {
    PrefixSize(n);
    FreePlusUsed(Prefix(n), total);
    forall i: nat ensures Below(n, i) ==> Below(total, i) { }
    assert Prefix(n) * Prefix(total) == Prefix(n);
  }
}
