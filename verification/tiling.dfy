/** What an accepted partitioning is worth: the masks tile the cache. */
module Tiling {
  import opened Results
  import opened Words
  import opened GoText
  import opened Partitioning
  import Slots

  /** Tiers as both producers make them. */
  predicate Sane(specs: seq<PartitionSpec>) {
    forall s | s in specs :: 0 <= s.ways && 0 <= s.count
  }

  // ----- sums

  lemma {:induction false} SumSplit(a: seq<int>, b: seq<int>)
    ensures Sum(a + b) == Sum(a) + Sum(b)
    decreases |b|
  {
    if |b| == 0 {
      assert a + b == a;
    } else {
      SumSplit(a, b[..|b| - 1]);
      assert (a + b)[..|a + b| - 1] == a + b[..|b| - 1];
    }
  }

  lemma {:induction false} SumCopies(ways: int, count: nat)
    ensures Sum(Copies(ways, count)) == ways * count
  {
    if count != 0 {
      SumCopies(ways, count - 1);
      assert Copies(ways, count)[..count - 1] == Copies(ways, count - 1);
      OneMoreCopy(ways, count);
    }
  }

  lemma OneMoreCopy(ways: int, count: int)
    ensures ways * count == ways * (count - 1) + ways
  {
  }

  /** With no negative count, what the validator adds up is what the loop places. */
  lemma {:induction false} PlacedIsRequested(specs: seq<PartitionSpec>)
    requires forall s | s in specs :: 0 <= s.count
    ensures Sum(Widths(specs)) == Requested(specs) && |Widths(specs)| == Groups(specs)
  {
    if |specs| != 0 {
      var before, last := specs[..|specs| - 1], specs[|specs| - 1];
      PlacedIsRequested(before);
      SumSplit(Widths(before), Copies(last.ways, last.count));
      assert last in specs;
      SumCopies(last.ways, last.count);
    }
  }

  /** The ways the layout loop places; it skips a tier with a negative count. */
  function Placed(specs: seq<PartitionSpec>): int {
    if |specs| == 0 then 0
    else Placed(specs[..|specs| - 1]) + Contribution(specs[|specs| - 1])
  }

  function Contribution(s: PartitionSpec): int {
    if s.count > 0 then s.ways * s.count else 0
  }

  lemma {:induction false} PlacedIsSum(specs: seq<PartitionSpec>)
    ensures Sum(Widths(specs)) == Placed(specs)
  {
    if |specs| != 0 {
      var before, last := specs[..|specs| - 1], specs[|specs| - 1];
      PlacedIsSum(before);
      SumSplit(Widths(before), Copies(last.ways, last.count));
      if last.count > 0 { SumCopies(last.ways, last.count); }
    }
  }

  /** No tier takes ways away: negative counts only where the tier is empty. */
  predicate NoNegative(specs: seq<PartitionSpec>) {
    forall s | s in specs :: 0 <= s.count || s.ways == 0
  }

  predicate NoPositive(specs: seq<PartitionSpec>) {
    forall s | s in specs :: s.count <= 0 || s.ways == 0
  }

  predicate NoNegativeWays(specs: seq<PartitionSpec>) {
    forall s | s in specs :: 0 <= s.ways
  }

  lemma OneTier(s: PartitionSpec)
    requires 0 <= s.ways
    ensures s.ways * s.count <= Contribution(s) && 0 <= Contribution(s)
    ensures s.ways * s.count == Contribution(s) <==> 0 <= s.count || s.ways == 0
    ensures Contribution(s) == 0 <==> s.count <= 0 || s.ways == 0
  {
    if 0 < s.ways && s.count != 0 {
      ProductSign(s.ways, s.count);
    }
  }

  lemma ProductSign(a: int, b: int)
    requires 0 < a
    ensures 0 < b ==> 0 < a * b
    ensures b < 0 ==> a * b < 0
  {
  }

  /** What the validator adds up never exceeds what is placed, and falls short of it
      exactly when a tier has a negative count. */
  lemma {:induction false} RequestedAndPlaced(specs: seq<PartitionSpec>)
    requires NoNegativeWays(specs)
    ensures Requested(specs) <= Placed(specs) && 0 <= Placed(specs)
    ensures Requested(specs) == Placed(specs) <==> NoNegative(specs)
    ensures Placed(specs) == 0 <==> NoPositive(specs)
  {
    if |specs| != 0 {
      var before, last := specs[..|specs| - 1], specs[|specs| - 1];
      assert specs == before + [last];
      assert forall s | s in before :: s in specs;
      assert last in specs;
      RequestedAndPlaced(before);
      OneTier(last);
      assert NoNegative(specs) <==> NoNegative(before) && (0 <= last.count || last.ways == 0);
      assert NoPositive(specs) <==> NoPositive(before) && (last.count <= 0 || last.ways == 0);
    }
  }

  lemma {:induction false} WidthsComeFromTiers(specs: seq<PartitionSpec>)
    ensures forall w | w in Widths(specs) :: exists s | s in specs :: s.ways == w
  {
    if |specs| != 0 {
      var before, last := specs[..|specs| - 1], specs[|specs| - 1];
      WidthsComeFromTiers(before);
      assert specs == before + [last];
      forall w | w in Widths(specs) ensures exists s | s in specs :: s.ways == w {
        if w !in Widths(before) { assert last in specs && last.ways == w; }
      }
    }
  }

  /** The partitions of the first i tiers. */
  function PartitionsBefore(specs: seq<PartitionSpec>, i: nat): nat
    requires i <= |specs|
  {
    if i == 0 then 0 else PartitionsBefore(specs, i - 1) + if specs[i - 1].count > 0 then specs[i - 1].count else 0
  }

  /** The tiers follow one another in the order given, each with as many partitions of its
      ways as it asks for. */
  lemma {:induction false} TierWidths(specs: seq<PartitionSpec>, i: nat, k: nat)
    requires i < |specs| && k < specs[i].count
    ensures |Widths(specs)| == PartitionsBefore(specs, |specs|)
    ensures PartitionsBefore(specs, i) + k < |Widths(specs)|
    ensures Widths(specs)[PartitionsBefore(specs, i) + k] == specs[i].ways
  {
    WidthCount(specs, i);
    WidthCount(specs, i + 1);
    WidthCount(specs, |specs|);
    WidthsGrow(specs, i + 1);
    assert specs[..|specs|] == specs;
    assert specs[..i + 1][..i] == specs[..i];
    var own := Copies(specs[i].ways, specs[i].count);
    assert Widths(specs[..i + 1]) == Widths(specs[..i]) + own;
    assert own[k] in own;
  }

  lemma {:induction false} WidthCount(specs: seq<PartitionSpec>, i: nat)
    requires i <= |specs|
    ensures |Widths(specs[..i])| == PartitionsBefore(specs, i)
  {
    if i != 0 {
      WidthCount(specs, i - 1);
      assert specs[..i][..i - 1] == specs[..i - 1];
    }
  }

  // ----- consecutive starts

  predicate NonNegative(ws: seq<int>) {
    forall w | w in ws :: 0 <= w
  }

  lemma NextStart(ws: seq<int>, j: nat)
    requires j < |ws|
    ensures StartWay(ws, j + 1) == StartWay(ws, j) + ws[j]
  {
    assert ws[..j + 1][..j] == ws[..j];
  }

  lemma {:induction false} StartsGrow(ws: seq<int>, i: nat, j: nat)
    requires NonNegative(ws) && i <= j <= |ws|
    ensures 0 <= StartWay(ws, i) <= StartWay(ws, j)
    decreases j
  {
    if i < j {
      StartsGrow(ws, i, j - 1);
      NextStart(ws, j - 1);
      assert ws[j - 1] in ws;
    } else if j != 0 {
      StartsGrow(ws, j - 1, j - 1);
      NextStart(ws, j - 1);
      assert ws[j - 1] in ws;
    }
  }

  lemma WholeSum(ws: seq<int>)
    ensures StartWay(ws, |ws|) == Sum(ws)
  {
    assert ws[..|ws|] == ws;
  }

  /** Every way below the sum lies in one partition. */
  lemma {:induction false} CellOf(ws: seq<int>, n: nat, way: nat) returns (j: nat)
    requires NonNegative(ws) && n <= |ws| && way < StartWay(ws, n)
    ensures j < n && StartWay(ws, j) <= way < StartWay(ws, j) + ws[j]
  {
    if n == 0 {
      assert false;
    } else if StartWay(ws, n - 1) <= way {
      NextStart(ws, n - 1);
      j := n - 1;
    } else {
      j := CellOf(ws, n - 1, way);
    }
  }

  // ----- the tiling

  /** The ways of partition j. */
  ghost function Cell(ws: seq<int>, j: nat): set<nat>
    requires j < |ws|
  {
    Ways(Mask(StartWay(ws, j), ws[j]))
  }

  lemma CellMember(ws: seq<int>, j: nat, way: nat)
    requires j < |ws|
    ensures way in Cell(ws, j) <==> way < WORD && StartWay(ws, j) <= way < StartWay(ws, j) + ws[j]
  {
    WaysMask(StartWay(ws, j), ws[j]);
    assert Within(StartWay(ws, j), ws[j], way) <==> way < WORD && StartWay(ws, j) <= way < StartWay(ws, j) + ws[j];
  }

  lemma CellsDisjoint(ws: seq<int>, i: nat, j: nat)
    requires NonNegative(ws) && i < j < |ws|
    ensures Cell(ws, i) !! Cell(ws, j)
  {
    NextStart(ws, i);
    StartsGrow(ws, i + 1, j);
    forall way | way in Cell(ws, i) ensures way !in Cell(ws, j) {
      CellMember(ws, i, way);
      CellMember(ws, j, way);
    }
  }

  lemma CellSize(ws: seq<int>, j: nat)
    requires NonNegative(ws) && j < |ws| && Sum(ws) <= WORD
    ensures |Cell(ws, j)| == ws[j]
  {
    StartsGrow(ws, 0, j);
    NextStart(ws, j);
    StartsGrow(ws, j + 1, |ws|);
    WholeSum(ws);
    assert ws[j] in ws;
    WaysMask(StartWay(ws, j), ws[j]);
    SpanSize(StartWay(ws, j), ws[j]);
  }

  ghost predicate InSomeCell(ws: seq<int>, way: nat) {
    exists j: nat :: j < |ws| && way in Cell(ws, j)
  }

  lemma CellsCover(ws: seq<int>, way: nat)
    requires NonNegative(ws)
    ensures InSomeCell(ws, way) <==> way < WORD && way < Sum(ws)
  {
    WholeSum(ws);
    if way < WORD && way < Sum(ws) {
      var j := CellOf(ws, |ws|, way);
      CellMember(ws, j, way);
    }
    forall j: nat | j < |ws| && way in Cell(ws, j) ensures way < WORD && way < Sum(ws) {
      CellMember(ws, j, way);
      NextStart(ws, j);
      StartsGrow(ws, j + 1, |ws|);
    }
  }

  /** The fields of a laid-out partition; its printed mask is read back as its cell. */
  lemma PartitionFields(d: Domain, ws: seq<int>, j: nat)
    requires j < |ws|
    ensures var p := PartitionAt(d, ws, j);
      && p.ways == ws[j] && p.sizeBytes == SizeOf(d, ws[j])
      && ParseHex64(p.cbm).Some? && Ways(ParseHex64(p.cbm).value) == Cell(ws, j)
  {
    HexRoundTrip(Mask(StartWay(ws, j), ws[j]));
  }

  /** The layout is a tiling: every partition has exactly its tier's ways, partitions
      are pairwise disjoint, and together they are the requested low ways. */
  ghost predicate Tiles(specs: seq<PartitionSpec>) {
    var ws := Widths(specs);
    && (forall j: nat | j < |ws| :: |Cell(ws, j)| == ws[j])
    && (forall i: nat, j: nat | i < j < |ws| :: Cell(ws, i) !! Cell(ws, j))
    && (forall way: nat :: InSomeCell(ws, way) <==> way < Requested(specs))
  }

  /** Exactly when an accepted layout is a tiling: no tier takes back ways that another
      tier asks for, that is, tiers with negative counts do not occur beside tiers with
      positive ones. */
  lemma TilesIff(info: CATInfo, specs: seq<PartitionSpec>)
    requires Accepted(info, Popcount(info.cbmMask), specs) && NoNegativeWays(specs)
    ensures Tiles(specs) <==> NoNegative(specs) || NoPositive(specs)
  {
    PopcountBound(info.cbmMask);
    RequestedAndPlaced(specs);
    if NoNegative(specs) || NoPositive(specs) {
      OneSignTiles(specs);
    } else {
      MixedSignsOverlap(specs);
    }
  }

  /** On hardware with a sensible minimum no accepted tier has negative ways. */
  lemma HardwareTilesIff(info: CATInfo, specs: seq<PartitionSpec>)
    requires Accepted(info, Popcount(info.cbmMask), specs) && 0 <= info.minCBMBits
    ensures Tiles(specs) <==> NoNegative(specs) || NoPositive(specs)
  {
    assert forall s | s in specs :: TierInRange(info, Popcount(info.cbmMask), s);
    TilesIff(info, specs);
  }

  lemma OneSignTiles(specs: seq<PartitionSpec>)
    requires NoNegativeWays(specs) && Placed(specs) <= WORD
    requires Requested(specs) == Placed(specs) || (Placed(specs) == 0 && Requested(specs) <= 0)
    ensures Tiles(specs)
  {
    var ws := Widths(specs);
    NonNegativeWidths(specs);
    PlacedIsSum(specs);
    forall j: nat | j < |ws| ensures |Cell(ws, j)| == ws[j] {
      CellSize(ws, j);
    }
    forall i: nat, j: nat | i < j < |ws| ensures Cell(ws, i) !! Cell(ws, j) {
      CellsDisjoint(ws, i, j);
    }
    forall way: nat ensures InSomeCell(ws, way) <==> way < Requested(specs) {
      CellsCover(ws, way);
    }
  }

  /** With more ways placed than requested, a way beyond the requested ones is handed
      out, or a partition is cut off at the end of the word. */
  lemma MixedSignsOverlap(specs: seq<PartitionSpec>)
    requires NoNegativeWays(specs) && Requested(specs) <= WORD
    requires Requested(specs) < Placed(specs) && 0 < Placed(specs)
    ensures !Tiles(specs)
  {
    var ws := Widths(specs);
    NonNegativeWidths(specs);
    PlacedIsSum(specs);
    if Requested(specs) < WORD {
      var way: nat := if Requested(specs) < 0 then 0 else Requested(specs);
      CellsCover(ws, way);
      assert InSomeCell(ws, way);
    } else {
      WholeSum(ws);
      var j := CellOf(ws, |ws|, WORD);
      StartsGrow(ws, 0, j);
      Slots.GrantIsExactIff(StartWay(ws, j), ws[j]);
      assert |Cell(ws, j)| != ws[j];
    }
  }

  lemma NonNegativeWidths(specs: seq<PartitionSpec>)
    requires NoNegativeWays(specs)
    ensures NonNegative(Widths(specs))
  {
    WidthsComeFromTiers(specs);
    forall w | w in Widths(specs) ensures 0 <= w {
      var s :| s in specs && s.ways == w;
    }
  }

  /** Accepted tiers from either producer tile the low ways of every domain: each
      partition is a contiguous run of exactly its tier's ways, no smaller than the
      hardware minimum; the partitions are pairwise disjoint and together are the
      requested low ways. */
  lemma AcceptedTiersTile(info: CATInfo, specs: seq<PartitionSpec>)
    requires Sane(specs) && Accepted(info, Popcount(info.cbmMask), specs)
    ensures var ws := Widths(specs);
      && Tiles(specs)
      && (forall j: nat | j < |ws| :: info.minCBMBits <= ws[j])
      && (forall j: nat | j < |ws| :: Cell(ws, j) == Span(StartWay(ws, j), ws[j]))
  {
    var ws := Widths(specs);
    TilesIff(info, specs);
    forall j: nat | j < |ws|
      ensures info.minCBMBits <= ws[j] && Cell(ws, j) == Span(StartWay(ws, j), ws[j])
    {
      OneCell(info, specs, j);
    }
  }

  lemma OneCell(info: CATInfo, specs: seq<PartitionSpec>, j: nat)
    requires Accepted(info, Popcount(info.cbmMask), specs) && j < |Widths(specs)|
    ensures var ws := Widths(specs);
      info.minCBMBits <= ws[j] && Cell(ws, j) == Span(StartWay(ws, j), ws[j])
  {
    var ws := Widths(specs);
    WidthsComeFromTiers(specs);
    WaysMask(StartWay(ws, j), ws[j]);
    assert ws[j] in ws;
    var s :| s in specs && s.ways == ws[j];
    assert TierInRange(info, Popcount(info.cbmMask), s);
  }

  // ----- negative counts

  /** Exactly when every partition ends inside the domain: the positive tiers alone do
      not ask for more than its ways. */
  lemma LayoutFitsIff(specs: seq<PartitionSpec>, totalWays: nat)
    requires NoNegativeWays(specs)
    ensures var ws := Widths(specs);
      (forall j: nat | j < |ws| :: StartWay(ws, j) + ws[j] <= totalWays) <==> Placed(specs) <= totalWays
  {
    var ws := Widths(specs);
    NonNegativeWidths(specs);
    PlacedIsSum(specs);
    WholeSum(ws);
    forall j: nat | j < |ws| ensures StartWay(ws, j) + ws[j] <= Sum(ws) {
      NextStart(ws, j);
      StartsGrow(ws, j + 1, |ws|);
    }
    if ws != [] { NextStart(ws, |ws| - 1); }
  }

  /** Accepted, yet laid out over twice the ways: tiers with a negative count. */
  lemma NegativeCountOverflows(info: CATInfo)
    requires Popcount(info.cbmMask) == 16 && info.minCBMBits <= 4 && 5 <= info.numCLOSIDs
    ensures var specs := [PartitionSpec(4, 8), PartitionSpec(4, -4)];
      Accepted(info, 16, specs) && Placed(specs) == 32 && !Tiles(specs)
  {
    var first, second := PartitionSpec(4, 8), PartitionSpec(4, -4);
    var specs := [first, second];
    TwoTiersAccepted(info, 16, first, second);
    TwoTiers(first, second);
    TilesIff(info, specs);
  }

  lemma TwoTiersAccepted(info: CATInfo, n: nat, a: PartitionSpec, b: PartitionSpec)
    requires TierInRange(info, n, a) && TierInRange(info, n, b)
    requires a.ways * a.count + b.ways * b.count <= n && a.count + b.count <= info.numCLOSIDs - 1
    ensures Accepted(info, n, [a, b])
    ensures 0 <= a.ways && 0 <= b.ways ==> NoNegativeWays([a, b])
    ensures b.count < 0 && b.ways != 0 ==> !NoNegative([a, b])
    ensures 0 < a.count && a.ways != 0 ==> !NoPositive([a, b])
  {
    TwoTiers(a, b);
    assert a in [a, b] && b in [a, b];
  }

  lemma TwoTiers(a: PartitionSpec, b: PartitionSpec)
    ensures Requested([a, b]) == a.ways * a.count + b.ways * b.count
    ensures Groups([a, b]) == a.count + b.count
    ensures Placed([a, b]) == Contribution(a) + Contribution(b)
  {
    OneTierSums(a);
    assert [a, b][..1] == [a];
  }

  lemma OneTierSums(a: PartitionSpec)
    ensures Requested([a]) == a.ways * a.count && Groups([a]) == a.count && Placed([a]) == Contribution(a)
  {
    assert [a][..0] == [];
  }

  // ----- equal partitions

  lemma Distribute(a: int, b: int, c: int)
    ensures (a + b) * c == a * c + b * c
  {
  }

  lemma CountArithmetic(count: int, n: nat)
    requires 0 < count
    ensures 0 <= n % count < count && 0 <= n / count <= n
    ensures n % count > 0 ==> n / count + 1 <= n
    ensures (n / count + 1) * (n % count) + n / count * (count - n % count) == n
  {
    var b, r := n / count, n % count;
    QuotientRemainder(n, count);
    Shares(b, r, count);
    Scaled(1, count, b);
  }

  lemma QuotientRemainder(n: nat, count: int)
    requires 0 < count
    ensures n == n / count * count + n % count && 0 <= n % count && 0 <= n / count
  {
  }

  lemma Shares(b: int, r: int, count: int)
    ensures (b + 1) * r + b * (count - r) == b * count + r
  {
    assert (b + 1) * r == b * r + r;
    assert b * (count - r) == b * count - b * r;
  }

  /** Which partition gets which width: those of the first tier come first, and the larger
      tier of a count is the first. */
  lemma SpecsFromCountWidths(count: int, n: nat, j: nat)
    requires 0 < count && j < count
    ensures var ws := Widths(SpecsFromCount(count, n));
      |ws| == count && ws[j] == n / count + if j < n % count then 1 else 0
  {
    CountArithmetic(count, n);
    var b, r := n / count, n % count;
    var larger, smaller := PartitionSpec(b + 1, r), PartitionSpec(b, count - r);
    if r > 0 {
      assert SpecsFromCount(count, n) == [larger, smaller];
      TierWidths([larger, smaller], if j < r then 0 else 1, if j < r then j else j - r);
      assert PartitionsBefore([larger, smaller], 1) == r && PartitionsBefore([larger, smaller], 2) == count;
    } else {
      assert SpecsFromCount(count, n) == [smaller];
      TierWidths([smaller], 0, j);
      assert PartitionsBefore([smaller], 1) == count;
    }
  }

  /** Of count partitions of n ways the first n % count have one way more than the others. */
  predicate EvenWidths(ws: seq<int>, count: int, n: nat)
    requires 0 < count
  {
    |ws| == count && forall j | 0 <= j < count :: ws[j] == n / count + if j < n % count then 1 else 0
  }

  lemma EvenlySpread(count: int, n: nat)
    requires 0 < count
    ensures EvenWidths(Widths(SpecsFromCount(count, n)), count, n)
  {
    SpecsFromCountWidths(count, n, 0);
    forall j: nat | j < count
      ensures var ws := Widths(SpecsFromCount(count, n));
        j < |ws| && ws[j] == n / count + if j < n % count then 1 else 0
    {
      SpecsFromCountWidths(count, n, j);
    }
  }

  /** The tiers of a partition count: sane, `count` partitions as even as they can be, all
      ways assigned. */
  lemma SpecsFromCountSums(count: int, n: nat)
    requires 0 < count
    ensures var specs := SpecsFromCount(count, n);
      && Sane(specs) && Requested(specs) == n && Groups(specs) == count
      && (forall s | s in specs :: n / count <= s.ways <= n / count + 1)
      && EvenWidths(Widths(specs), count, n)
  {
    CountSums(count, n);
    EvenlySpread(count, n);
  }

  lemma CountSums(count: int, n: nat)
    requires 0 < count
    ensures var specs := SpecsFromCount(count, n);
      && Sane(specs) && Requested(specs) == n && Groups(specs) == count
      && forall s | s in specs :: n / count <= s.ways <= n / count + 1
  {
    CountArithmetic(count, n);
    TiersOf(n / count, n % count, count);
    assert n % count == 0 ==> n / count * (count - n % count) == n;
  }

  lemma TiersOf(b: nat, r: nat, count: nat)
    requires r < count
    ensures var specs := (if r > 0 then [PartitionSpec(b + 1, r)] else []) + [PartitionSpec(b, count - r)];
      && Sane(specs)
      && Requested(specs) == (if r > 0 then (b + 1) * r else 0) + b * (count - r)
      && Groups(specs) == count
  {
    var first, last := PartitionSpec(b + 1, r), PartitionSpec(b, count - r);
    if r > 0 {
      TwoTiers(first, last);
      assert [first] + [last] == [first, last];
    } else {
      OneTierSums(last);
      assert [] + [last] == [last];
    }
  }

  /** `PartitionCache` on the tiers of a count succeeds exactly when the count is
      positive, the smallest partition reaches the hardware minimum and there are
      enough classes of service; then the partitions differ by at most one way. */
  lemma CountAcceptedIff(info: CATInfo, count: int)
    ensures var n := Popcount(info.cbmMask);
            var specs := SpecsFromCount(count, n);
      && (Accepted(info, n, specs) <==> 0 < count && info.minCBMBits <= n / count && count <= info.numCLOSIDs - 1)
      && (0 < count ==>
            && |Widths(specs)| == count && Sum(Widths(specs)) == n
            && forall w | w in Widths(specs) :: n / count <= w <= n / count + 1)
  {
    var n := Popcount(info.cbmMask);
    var specs := SpecsFromCount(count, n);
    if 0 < count {
      SpecsFromCountSums(count, n);
      CountArithmetic(count, n);
      PlacedIsRequested(specs);
      WidthsComeFromTiers(specs);
      assert PartitionSpec(n / count, count - n % count) in specs;
    }
  }

  /** With a partition count no way is left to the default group. */
  lemma CountTilesEverything(info: CATInfo, count: int)
    requires Accepted(info, Popcount(info.cbmMask), SpecsFromCount(count, Popcount(info.cbmMask)))
    ensures var n := Popcount(info.cbmMask);
      forall way: nat :: InSomeCell(Widths(SpecsFromCount(count, n)), way) <==> way < n
  {
    CountAcceptedIff(info, count);
    SpecsFromCountSums(count, Popcount(info.cbmMask));
    AcceptedTiersTile(info, SpecsFromCount(count, Popcount(info.cbmMask)));
  }

  // ----- sizes

  ghost function TotalSize(d: Domain, ws: seq<int>, n: nat): int
    requires n <= |ws|
  {
    if n == 0 then 0 else TotalSize(d, ws, n - 1) + SizeOf(d, ws[n - 1])
  }

  lemma {:induction false} SizesAddUp(d: Domain, ws: seq<int>, n: nat)
    requires n <= |ws| && 0 <= d.waySizeBytes
    ensures TotalSize(d, ws, n) == StartWay(ws, n) * d.waySizeBytes
  {
    if n != 0 {
      SizesAddUp(d, ws, n - 1);
      NextStart(ws, n - 1);
      Distribute(StartWay(ws, n - 1), ws[n - 1], d.waySizeBytes);
    }
  }

  /** The sizes of a domain's partitions never exceed the cache, and when every way is
      assigned less than one byte per way is lost to rounding. */
  lemma SizesWithinCache(totalSizeBytes: int, d: Domain, ws: seq<int>)
    requires 0 < totalSizeBytes && 0 < d.totalWays && d.waySizeBytes == WaySize(totalSizeBytes, d.totalWays)
    requires NonNegative(ws) && Sum(ws) <= d.totalWays
    ensures TotalSize(d, ws, |ws|) <= totalSizeBytes
    ensures Sum(ws) == d.totalWays ==> totalSizeBytes - TotalSize(d, ws, |ws|) < d.totalWays
  {
    var n, q := d.totalWays, totalSizeBytes / d.totalWays;
    assert totalSizeBytes == q * n + totalSizeBytes % n;
    SizesAddUp(d, ws, |ws|);
    WholeSum(ws);
    Scaled(Sum(ws), n, q);
  }

  /** So it is for the accepted tiers of both producers; less than one byte per way is
      lost when they ask for every way. */
  lemma AcceptedSizes(info: CATInfo, specs: seq<PartitionSpec>, totalSizeBytes: int, d: Domain)
    requires Sane(specs) && Accepted(info, Popcount(info.cbmMask), specs)
    requires d.totalWays == Popcount(info.cbmMask) && 0 < d.totalWays && 0 < totalSizeBytes
    requires d.waySizeBytes == WaySize(totalSizeBytes, d.totalWays)
    ensures var ws := Widths(specs);
      && TotalSize(d, ws, |ws|) <= totalSizeBytes
      && (Requested(specs) == d.totalWays ==> totalSizeBytes - TotalSize(d, ws, |ws|) < d.totalWays)
  {
    PlacedIsRequested(specs);
    NonNegativeWidths(specs);
    SizesWithinCache(totalSizeBytes, d, Widths(specs));
  }

  lemma Scaled(a: int, b: int, c: nat)
    requires a <= b
    ensures a * c <= b * c
  {
  }

  /** `CachePartitionSizeBytes`. */
  function EstimatedSize(ways: int, totalWays: int, totalSizeBytes: int): int
    requires 0 <= totalSizeBytes * ways && 0 <= totalWays
  {
    if totalWays == 0 then 0 else totalSizeBytes * ways / totalWays
  }

  /** Rounding per way falls short of rounding once by less than one byte per way. */
  lemma RoundingGap(ways: int, totalWays: int, totalSizeBytes: int)
    requires 1 <= ways && 1 <= totalWays && 0 <= totalSizeBytes
    ensures var perWay := ways * (totalSizeBytes / totalWays);
      && 0 <= totalSizeBytes * ways
      && 0 <= EstimatedSize(ways, totalWays, totalSizeBytes) - perWay < ways
  {
    var q, r := totalSizeBytes / totalWays, totalSizeBytes % totalWays;
    assert totalSizeBytes == q * totalWays + r;
    assert totalSizeBytes * ways >= 0;
    assert totalSizeBytes * ways == (q * ways) * totalWays + r * ways;
    var e := totalSizeBytes * ways / totalWays;
    var f := totalSizeBytes * ways % totalWays;
    assert totalSizeBytes * ways == e * totalWays + f;
    var gap := e - q * ways;
    assert gap * totalWays == r * ways - f;
    assert r * ways < totalWays * ways;
    assert gap * totalWays < ways * totalWays;
    assert gap * totalWays > -totalWays;
    GapBounds(gap, ways, totalWays);
  }

  lemma GapBounds(gap: int, ways: int, n: int)
    requires 1 <= n && -n < gap * n < ways * n
    ensures 0 <= gap < ways
  {
    Positive(gap + 1, n);
    Positive(ways - gap, n);
  }

  lemma Positive(x: int, n: int)
    requires 1 <= n && 0 < x * n
    ensures 0 < x
  {
  }
}
