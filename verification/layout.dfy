/** What a partitioned cache looks like, field by field, and what structured mode publishes
  from it. */
module Layout {
  import opened Results
  import opened Words
  import opened WordValues
  import opened GoText
  import opened Numerals
  import opened Names
  import opened Partitioning
  import opened Tiling
  import opened Discovery
  import opened Meaning

  /** Every partition of an accepted result: partition j of domain i carries that domain,
      its own index, the width and the mask the tiers give it, and the hardware's values. */
  lemma PartitionIsOf(info: CATInfo, specs: seq<PartitionSpec>, numa: Option<map<int, int>>,
                      size: Option<map<int, int>>, cpu: Option<map<int, string>>,
                      perCache: seq<seq<CachePartition>>, i: nat, j: nat)
    requires AllLaidOut(perCache, info, Popcount(info.cbmMask), numa, size, cpu, specs)
    requires i < |perCache| && j < |perCache[i]|
    ensures var p := perCache[i][j];
      && p.cacheID == info.cacheIDs[i] && p.index == j
      && p.id == PartitionID(info.cacheIDs[i], j) && p.resctrlGroup == PartitionGroup(info.cacheIDs[i], j)
      && p.ways == Widths(specs)[j] && p.cbm == Hex(Mask(StartWay(Widths(specs), j), p.ways))
      && p.mbaThrottle == p.smbaThrottle == 0
      && FieldsOf(p, info, numa, size, cpu)
  {
    var d := DomainOf(info, Popcount(info.cbmMask), info.cacheIDs[i], numa, size, cpu);
    assert DomainLaidOut(perCache[i], d, specs);
    assert perCache[i][j] == PartitionAt(d, Widths(specs), j);
    FieldsAt(info, Widths(specs), numa, size, cpu, info.cacheIDs[i], j);
  }

  /** The ways of the partitions in front of partition j. */
  function WaysBefore(page: seq<CachePartition>, j: nat): int
    requires j <= |page|
  {
    if j == 0 then 0 else WaysBefore(page, j - 1) + page[j - 1].ways
  }

  /** The masks follow one another from way 0 up, in the order of the partitions: each
      reads as the ways from where the one before ends. */
  lemma MasksFollow(info: CATInfo, specs: seq<PartitionSpec>, numa: Option<map<int, int>>,
                    size: Option<map<int, int>>, cpu: Option<map<int, string>>,
                    perCache: seq<seq<CachePartition>>, i: nat, j: nat) returns (m: bv64)
    requires AllLaidOut(perCache, info, Popcount(info.cbmMask), numa, size, cpu, specs)
    requires i < |perCache| && j < |perCache[i]|
    ensures var page := perCache[i];
            var start := WaysBefore(page, j);
      && HexReadsAs(page[j].cbm, m)
      && forall way: nat | way < WORD :: HasWay(m, way) <==> start <= way < start + page[j].ways
  {
    var page, ws := perCache[i], Widths(specs);
    m := Mask(StartWay(ws, j), ws[j]);
    PartitionIsOf(info, specs, numa, size, cpu, perCache, i, j);
    assert DomainLaidOut(page, DomainOf(info, Popcount(info.cbmMask), info.cacheIDs[i], numa, size, cpu), specs);
    StartsBehind(page, ws, j);
    HexRoundTrip(m);
    ParseHexIff(page[j].cbm, m);
    WaysMask(StartWay(ws, j), ws[j]);
    forall way: nat | way < WORD ensures HasWay(m, way) <==> way in Span(StartWay(ws, j), ws[j]) {
      WayIsBinaryDigit(m, way);
    }
  }

  lemma {:induction false} StartsBehind(page: seq<CachePartition>, ws: seq<int>, j: nat)
    requires j <= |page| == |ws| && forall k | 0 <= k < |page| :: page[k].ways == ws[k]
    ensures StartWay(ws, j) == WaysBefore(page, j)
  {
    if j == 0 {
      assert ws[..0] == [];
    } else {
      StartsBehind(page, ws, j - 1);
      NextStart(ws, j - 1);
    }
  }

  /** The counters structured mode derives from the partitions: one for each domain, worth
      all the ways of the hardware mask. */
  function TotalsOf(info: CATInfo, n: int): map<int, int> {
    map c | c in info.cacheIDs :: n
  }

  /** Exactly when the partitions give structured mode a counter and devices for every
      domain: there is a partition at all, and the domains are numbers that can be printed
      and read back. */
  lemma OnePerDomainIff(info: CATInfo, specs: seq<PartitionSpec>, numa: Option<map<int, int>>,
                        size: Option<map<int, int>>, cpu: Option<map<int, string>>,
                        perCache: seq<seq<CachePartition>>)
    requires |perCache| == |info.cacheIDs|
    requires AllLaidOut(perCache, info, Popcount(info.cbmMask), numa, size, cpu, specs)
    ensures OnePerDomain(perCache, TotalsOf(info, Popcount(info.cbmMask)))
      <==> info.cacheIDs == []
           || (Widths(specs) != [] && forall c | c in info.cacheIDs :: 0 <= c <= MAX_INT64)
  {
    PopcountBound(info.cbmMask);
    forall i | 0 <= i < |perCache|
      ensures FirstIsOf(perCache[i], info.cacheIDs[i], Popcount(info.cbmMask), |Widths(specs)|)
    {
      assert |perCache[i]| == |Widths(specs)|;
      if |perCache[i]| > 0 { PartitionIsOf(info, specs, numa, size, cpu, perCache, i, 0); }
    }
    OnePerID(perCache, info, Popcount(info.cbmMask), |Widths(specs)|);
  }

  predicate FirstIsOf(page: seq<CachePartition>, c: int, n: int, size: nat) {
    |page| == size && (size > 0 ==> page[0].cacheID == c && page[0].totalWays == n)
  }

  lemma OnePerID(perCache: seq<seq<CachePartition>>, info: CATInfo, n: nat, size: nat)
    requires |perCache| == |info.cacheIDs| && n <= WORD
    requires forall i | 0 <= i < |perCache| :: FirstIsOf(perCache[i], info.cacheIDs[i], n, size)
    ensures OnePerDomain(perCache, TotalsOf(info, n))
      <==> info.cacheIDs == [] || (size > 0 && forall c | c in info.cacheIDs :: 0 <= c <= MAX_INT64)
  {
    if info.cacheIDs != [] {
      assert info.cacheIDs[0] in info.cacheIDs && FirstIsOf(perCache[0], info.cacheIDs[0], n, size);
    }
    forall d | d in info.cacheIDs && size > 0
      ensures exists i :: 0 <= i < |perCache| && |perCache[i]| > 0 && perCache[i][0].cacheID == d
    {
      var i :| 0 <= i < |info.cacheIDs| && info.cacheIDs[i] == d;
      assert FirstIsOf(perCache[i], d, n, size);
    }
  }

  /** So the devices published from a partitioned cache are exactly the requests an empty
      node grants: 1 to all ways of the hardware mask in each domain. */
  lemma PublishedFromPartitions(info: CATInfo, specs: seq<PartitionSpec>, numa: Option<map<int, int>>,
                                size: Option<map<int, int>>, cpu: Option<map<int, string>>,
                                perCache: seq<seq<CachePartition>>, dom: int, ways: int)
    requires |perCache| == |info.cacheIDs| && Widths(specs) != []
    requires AllLaidOut(perCache, info, Popcount(info.cbmMask), numa, size, cpu, specs)
    requires forall c | c in info.cacheIDs :: 0 <= c <= MAX_INT64
    ensures (exists d | d in Collect(DevicesFor, perCache) ::
               ParseDeviceName(d.name) == Some((dom, ways)) && d.consumes == ways && d.counterKey == CounterKey(dom))
      <==> dom in info.cacheIDs && 1 <= ways <= Popcount(info.cbmMask)
  {
    OnePerDomainIff(info, specs, numa, size, cpu, perCache);
    var totals := TotalsOf(info, Popcount(info.cbmMask));
    PublishedIffGrantable(perCache, totals, dom, ways);
    GrantedWhenEmpty(totals, dom, ways);
  }
}
