/** Masks count from way 0; what that means on hardware whose capacity mask has gaps. */
module HardwareMask {
  import opened Words
  import opened Windows
  import opened Slots
  import opened Partitioning
  import opened Tiling

  lemma LowWaysInsideMaskIff(m: bv64)
    ensures Prefix(Popcount(m)) <= Ways(m) <==> Ways(m) == Prefix(Popcount(m))
  {
    PrefixSize(Popcount(m));
    if Prefix(Popcount(m)) <= Ways(m) { SameSizeSubset(Prefix(Popcount(m)), Ways(m)); }
  }

  lemma SameSizeSubset(a: set<nat>, b: set<nat>)
    requires a <= b && |a| == |b|
    ensures a == b
  {
    assert b == a + (b - a);
    assert |b - a| == 0;
  }

  // ----- static partitions

  /** The partitions stay inside the hardware mask exactly when it has all the ways
      below the number placed. */
  lemma LayoutInsideMaskIff(mask: bv64, specs: seq<PartitionSpec>)
    requires NoNegativeWays(specs)
    ensures var ws := Widths(specs);
      (forall j: nat | j < |ws| :: Cell(ws, j) <= Ways(mask))
      <==> forall way: nat | way < WORD && way < Placed(specs) :: way in Ways(mask)
  {
    var ws := Widths(specs);
    NonNegativeWidths(specs);
    PlacedIsSum(specs);
    forall way: nat ensures InSomeCell(ws, way) <==> way < WORD && way < Placed(specs) {
      CellsCover(ws, way);
    }
    if forall j: nat | j < |ws| :: Cell(ws, j) <= Ways(mask) {
      forall way: nat | way < WORD && way < Placed(specs) ensures way in Ways(mask) {
        assert InSomeCell(ws, way);
      }
    }
    if forall way: nat | way < WORD && way < Placed(specs) :: way in Ways(mask) {
      forall j: nat, way | j < |ws| && way in Cell(ws, j) ensures way in Ways(mask) {
        assert InSomeCell(ws, way);
      }
    }
  }

  /** Accepted tiers of either producer stay inside the hardware mask exactly when the
      mask has all the requested low ways. */
  lemma TiersInsideMaskIff(info: CATInfo, specs: seq<PartitionSpec>)
    requires Sane(specs) && Accepted(info, Popcount(info.cbmMask), specs)
    ensures 0 <= Requested(specs)
    ensures var ws := Widths(specs);
      (forall j: nat | j < |ws| :: Cell(ws, j) <= Ways(info.cbmMask))
        <==> Prefix(Requested(specs)) <= Ways(info.cbmMask)
  {
    RequestedAndPlaced(specs);
    PopcountBound(info.cbmMask);
    LayoutInsideMaskIff(info.cbmMask, specs);
    var n: nat := Requested(specs);
    forall way: nat ensures way in Prefix(n) <==> way < WORD && way < Placed(specs) {
      assert Below(n, way) <==> way < n;
    }
  }

  // ----- grants of structured mode

  /** All grants of a domain stay inside the hardware mask exactly when the mask has no
      gap below its top. */
  lemma GrantsInsideMaskIff(mask: bv64, totals: map<int, int>, dom: int)
    requires dom in totals && totals[dom] == Popcount(mask) && mask != 0
    ensures (forall used, ways | AllocateResult(totals, used, dom, ways).Ok? ::
               Ways(AllocateResult(totals, used, dom, ways).value) <= Ways(mask))
      <==> Ways(mask) == Prefix(Popcount(mask))
  {
    var n := Popcount(mask);
    LowWaysInsideMaskIff(mask);
    forall used, ways | AllocateResult(totals, used, dom, ways).Ok?
      ensures Ways(AllocateResult(totals, used, dom, ways).value) <= Prefix(n)
    {
      GrantInsideDomain(totals, used, dom, ways);
    }
    WholeDomainGrant(mask, totals, dom);
    assert AllocateResult(totals, {}, dom, n).Ok?;
  }

  lemma GrantInsideDomain(totals: map<int, int>, used: set<Slot>, dom: int, ways: int)
    requires AllocateResult(totals, used, dom, ways).Ok?
    ensures 0 <= totals[dom] && Ways(AllocateResult(totals, used, dom, ways).value) <= Prefix(totals[dom])
  {
    GrantIsFree(totals, used, dom, ways);
    var mask := AllocateResult(totals, used, dom, ways).value;
    var start: nat :| start + ways <= totals[dom] && mask == Mask(start, ways);
    WaysMask(start, ways);
    forall i | i in Ways(mask) ensures i in Prefix(totals[dom]) {
      assert Within(start, ways, i);
      assert Below(totals[dom], i);
    }
  }

  /** A request for the whole of an empty domain. */
  lemma WholeDomainGrant(mask: bv64, totals: map<int, int>, dom: int)
    requires dom in totals && totals[dom] == Popcount(mask) && mask != 0
    ensures var r := AllocateResult(totals, {}, dom, Popcount(mask));
      r.Ok? && Ways(r.value) == Prefix(Popcount(mask))
  {
    var n := Popcount(mask);
    ZeroIffNoWays(mask);
    PopcountBound(mask);
    assert UsedIn({}, dom) == {};
    forall i: nat ensures !Below(0, i) { }
    assert Prefix(0) == {};
    FirstFitAfterPrefix(n, 0, n);
    WaysMask(0, n);
  }

  // ----- a mask with a gap

  /** Ways 0, 1 and 3: a two-way partition stays inside, a grant of all three ways takes
      way 2, which the hardware does not have. */
  lemma GapExample(totals: map<int, int>, dom: int)
    requires dom in totals && totals[dom] == 3
    ensures Ways(0xB) == {0, 1, 3} && Popcount(0xB) == 3
    ensures Placed([PartitionSpec(2, 1)]) == 2
    ensures forall j: nat | j < |Widths([PartitionSpec(2, 1)])| :: Cell(Widths([PartitionSpec(2, 1)]), j) <= Ways(0xB)
    ensures var r := AllocateResult(totals, {}, dom, 3);
      r.Ok? && 2 in Ways(r.value) && 2 !in Ways(0xB)
  {
    GapWays();
    OneTierSums(PartitionSpec(2, 1));
    LayoutInsideMaskIff(0xB, [PartitionSpec(2, 1)]);
    assert 0xB as bv64 != 0;
    WholeDomainGrant(0xB, totals, dom);
    assert Below(3, 2);
  }

  lemma GapWays()
    ensures Ways(0xB) == {0, 1, 3} && Popcount(0xB) == 3
  {
    var m: bv64 := 0xB;
    assert m == Mask(0, 2) | OneHot(3) by { LowTwo(); }
    WaysOr(Mask(0, 2), OneHot(3));
    WaysMask(0, 2);
    WaysOneHot(3);
    forall i: nat ensures Within(0, 2, i) <==> i == 0 || i == 1 { }
    assert Span(0, 2) == {0, 1};
  }

  lemma LowTwo()
    ensures Mask(0, 2) == 3 && OneHot(3) == 8
  {
    assert Mask(0, 1) == Mask(0, 0) | OneHot(0);
    assert OneHot(0) == 1 && OneHot(1) == 2;
  }
}
