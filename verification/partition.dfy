/** Static partitioning of a cache: validation of the size tiers, and the layout of
  one contiguous mask per partition. */
module Partitioning {
  import opened Results
  import opened Words
  import opened GoText
  import opened Names

  /** One size tier: `count` partitions of `ways` ways each. */
  datatype PartitionSpec = PartitionSpec(ways: int, count: int)

  /** What the hardware offers. */
  datatype CATInfo = CATInfo(numCLOSIDs: int, cbmMask: bv64, minCBMBits: int, cacheIDs: seq<int>)

  datatype CachePartition = CachePartition(
    id: string, cacheID: int, index: int, ways: int, totalWays: int, cbm: string,
    sizeBytes: int, waySizeBytes: int, minCBMBits: int, level: string,
    numaNode: int, cpuList: string, resctrlGroup: string, mbaThrottle: int, smbaThrottle: int)

  datatype PartitionError = NoSpecs | BelowMinimum | AboveTotal | TooManyWays | TooManyGroups

  // ----- validation

  /** The ways the tiers ask for, as the validator adds them up. */
  function Requested(specs: seq<PartitionSpec>): int {
    if |specs| == 0 then 0
    else Requested(specs[..|specs| - 1]) + specs[|specs| - 1].ways * specs[|specs| - 1].count
  }

  function Groups(specs: seq<PartitionSpec>): int {
    if |specs| == 0 then 0 else Groups(specs[..|specs| - 1]) + specs[|specs| - 1].count
  }

  predicate TierInRange(info: CATInfo, totalWays: int, s: PartitionSpec) {
    info.minCBMBits <= s.ways <= totalWays
  }

  /** What the hardware can accommodate: at least one tier, every tier between the
      minimum and the total, and the sums within ways and classes of service, one
      class being reserved. */
  predicate Accepted(info: CATInfo, totalWays: int, specs: seq<PartitionSpec>) {
    && specs != []
    && (forall s | s in specs :: TierInRange(info, totalWays, s))
    && Requested(specs) <= totalWays
    && Groups(specs) <= info.numCLOSIDs - 1
  }

  /** The first tier outside the hardware's range. */
  predicate FirstBad(info: CATInfo, totalWays: int, specs: seq<PartitionSpec>, k: nat) {
    && k < |specs| && !TierInRange(info, totalWays, specs[k])
    && forall i | 0 <= i < k :: TierInRange(info, totalWays, specs[i])
  }

  predicate AllInRange(info: CATInfo, totalWays: int, specs: seq<PartitionSpec>) {
    forall s | s in specs :: TierInRange(info, totalWays, s)
  }

  /** What each error means; the tiers are looked at one by one before the sums. */
  ghost predicate FailsWith(info: CATInfo, totalWays: int, specs: seq<PartitionSpec>, e: PartitionError) {
    match e
    case NoSpecs => specs == []
    case BelowMinimum => exists k: nat :: FirstBad(info, totalWays, specs, k) && specs[k].ways < info.minCBMBits
    case AboveTotal =>
      exists k: nat :: FirstBad(info, totalWays, specs, k) && info.minCBMBits <= specs[k].ways
    case TooManyWays => specs != [] && AllInRange(info, totalWays, specs) && totalWays < Requested(specs)
    case TooManyGroups =>
      && specs != [] && AllInRange(info, totalWays, specs) && Requested(specs) <= totalWays
      && info.numCLOSIDs - 1 < Groups(specs)
  }

  /** Exactly the tiers that are not accepted fail, with one error. */
  lemma FailsIff(info: CATInfo, totalWays: int, specs: seq<PartitionSpec>)
    ensures (exists e :: FailsWith(info, totalWays, specs, e)) <==> !Accepted(info, totalWays, specs)
    ensures forall e, e' | FailsWith(info, totalWays, specs, e) && FailsWith(info, totalWays, specs, e') :: e == e'
  {
    if specs != [] && !AllInRange(info, totalWays, specs) {
      var k := FindBad(info, totalWays, specs);
      assert FailsWith(info, totalWays, specs, if specs[k].ways < info.minCBMBits then BelowMinimum else AboveTotal);
      assert forall i: nat | FirstBad(info, totalWays, specs, i) :: i == k;
      assert specs[k] in specs;
    } else {
      assert forall k: nat :: FirstBad(info, totalWays, specs, k) ==> specs[k] in specs;
      if !Accepted(info, totalWays, specs) {
        var e := if specs == [] then NoSpecs else if totalWays < Requested(specs) then TooManyWays else TooManyGroups;
        assert FailsWith(info, totalWays, specs, e);
      }
    }
  }

  lemma {:induction false} FindBad(info: CATInfo, totalWays: int, specs: seq<PartitionSpec>) returns (k: nat)
    requires !AllInRange(info, totalWays, specs)
    ensures FirstBad(info, totalWays, specs, k)
  {
    var n := |specs| - 1;
    if AllInRange(info, totalWays, specs[..n]) {
      k := n;
      assert forall i | 0 <= i < n :: specs[i] == specs[..n][i] && specs[i] in specs[..n];
      assert specs == specs[..n] + [specs[n]];
    } else {
      k := FindBad(info, totalWays, specs[..n]);
      assert forall i | 0 <= i < n :: specs[i] == specs[..n][i];
    }
  }

  // ----- layout

  /** The widths of the partitions of one domain, in order. */
  function Widths(specs: seq<PartitionSpec>): seq<int> {
    if |specs| == 0 then []
    else Widths(specs[..|specs| - 1]) + Copies(specs[|specs| - 1].ways, specs[|specs| - 1].count)
  }

  function Copies(ways: int, count: int): (r: seq<int>)
    ensures |r| == if count < 0 then 0 else count
    ensures forall w | w in r :: w == ways
  {
    if count <= 0 then [] else Copies(ways, count - 1) + [ways]
  }

  function Sum(ws: seq<int>): int {
    if |ws| == 0 then 0 else Sum(ws[..|ws| - 1]) + ws[|ws| - 1]
  }

  /** The first way of partition j. */
  function StartWay(ws: seq<int>, j: nat): int
    requires j <= |ws|
  {
    Sum(ws[..j])
  }

  /** What all partitions of a domain have in common. */
  datatype Domain = Domain(
    cacheID: int, totalWays: int, waySizeBytes: int, minCBMBits: int, numaNode: int, cpuList: string)

  function PartitionAt(d: Domain, ws: seq<int>, j: nat): CachePartition
    requires j < |ws|
  {
    CachePartition(
      PartitionID(d.cacheID, j), d.cacheID, j, ws[j], d.totalWays, Hex(Mask(StartWay(ws, j), ws[j])),
      SizeOf(d, ws[j]), d.waySizeBytes, d.minCBMBits, "L3",
      d.numaNode, d.cpuList, PartitionGroup(d.cacheID, j), 0, 0)
  }

  function SizeOf(d: Domain, ways: int): int {
    if d.waySizeBytes > 0 then ways * d.waySizeBytes else 0
  }

  function Lookup<V>(m: Option<map<int, V>>, key: int, default: V): V {
    if m.Some? && key in m.value then m.value[key] else default
  }

  /** Size of one way, zero when the cache size is unknown. */
  function WaySize(totalSizeBytes: int, totalWays: int): int {
    if totalSizeBytes > 0 && totalWays > 0 then totalSizeBytes / totalWays else 0
  }

  function DomainOf(info: CATInfo, totalWays: int, cacheID: int, numa: Option<map<int, int>>,
                    size: Option<map<int, int>>, cpu: Option<map<int, string>>): Domain {
    Domain(cacheID, totalWays, WaySize(Lookup(size, cacheID, 0), totalWays), info.minCBMBits,
           Lookup(numa, cacheID, -1), Lookup(cpu, cacheID, ""))
  }

  // ----- the operations

  /** `buildCBM`. */
  method BuildCBM(startWay: int, numWays: int) returns (cbm: bv64)
    ensures cbm == Mask(startWay, numWays)
  {
    cbm := 0;
    var i := startWay;
    while i < startWay + numWays
      invariant startWay <= i
      invariant if numWays < 0 then i == startWay else i <= startWay + numWays
      invariant cbm == Mask(startWay, i - startWay)
    {
      cbm := cbm | OneHot(i);
      i := i + 1;
    }
  }

  /** The validation loop of `PartitionCache`. */
  method Validate(info: CATInfo, totalWays: int, specs: seq<PartitionSpec>) returns (e: Option<PartitionError>)
    ensures e.None? <==> Accepted(info, totalWays, specs)
    ensures e.Some? ==> FailsWith(info, totalWays, specs, e.value)
  {
    if |specs| == 0 {
      return Some(NoSpecs);
    }
    var totalRequested, totalCount, i := 0, 0, 0;
    while i < |specs|
      invariant i <= |specs|
      invariant totalRequested == Requested(specs[..i]) && totalCount == Groups(specs[..i])
      invariant forall k | 0 <= k < i :: TierInRange(info, totalWays, specs[k])
    {
      var s := specs[i];
      if s.ways < info.minCBMBits {
        assert FirstBad(info, totalWays, specs, i);
        return Some(BelowMinimum);
      }
      if s.ways > totalWays {
        assert FirstBad(info, totalWays, specs, i);
        return Some(AboveTotal);
      }
      assert specs[..i + 1][..i] == specs[..i];
      totalRequested := totalRequested + s.ways * s.count;
      totalCount := totalCount + s.count;
      i := i + 1;
    }
    assert specs[..i] == specs;
    if totalRequested > totalWays {
      return Some(TooManyWays);
    }
    if totalCount > info.numCLOSIDs - 1 {
      return Some(TooManyGroups);
    }
    return None;
  }

  /** The first partitions of a domain are where the widths put them. */
  ghost predicate LaidOut(ps: seq<CachePartition>, d: Domain, ws: seq<int>) {
    |ps| <= |ws| && forall j | 0 <= j < |ps| :: ps[j] == PartitionAt(d, ws, j)
  }

  /** All partitions of a domain, and no more. */
  ghost predicate DomainLaidOut(ps: seq<CachePartition>, d: Domain, specs: seq<PartitionSpec>) {
    |ps| == |Widths(specs)| && LaidOut(ps, d, Widths(specs))
  }

  lemma LaidOutNext(ps: seq<CachePartition>, d: Domain, ws: seq<int>, p: CachePartition)
    requires LaidOut(ps, d, ws) && |ps| < |ws| && p == PartitionAt(d, ws, |ps|)
    ensures LaidOut(ps + [p], d, ws)
  {
  }

  /** One partition: its mask, its size, its names. */
  method MakePartition(d: Domain, index: nat, startWay: int, ways: int, ghost ws: seq<int>) returns (p: CachePartition)
    requires index < |ws| && startWay == StartWay(ws, index) && ways == ws[index]
    ensures p == PartitionAt(d, ws, index)
  {
    var cbm := BuildCBM(startWay, ways);
    var sizeBytes := if d.waySizeBytes > 0 then ways * d.waySizeBytes else 0;
    p := CachePartition(
      PartitionID(d.cacheID, index), d.cacheID, index, ways, d.totalWays, Hex(cbm),
      sizeBytes, d.waySizeBytes, d.minCBMBits, "L3", d.numaNode, d.cpuList, PartitionGroup(d.cacheID, index), 0, 0);
  }

  /** The partitions of one tier, after those before it. */
  method PartitionTier(d: Domain, spec: PartitionSpec, before: seq<CachePartition>, startWay: int,
                       ghost placed: seq<int>, ghost all: seq<int>)
    returns (ps: seq<CachePartition>, nextWay: int)
    requires LaidOut(before, d, all) && |before| == |placed| && startWay == Sum(placed)
    requires placed + Copies(spec.ways, spec.count) <= all
    ensures LaidOut(ps, d, all) && |ps| == |placed + Copies(spec.ways, spec.count)|
    ensures nextWay == Sum(placed + Copies(spec.ways, spec.count))
  {
    ps, nextWay := before, startWay;
    assert placed + Copies(spec.ways, 0) == placed;
    var j := 0;
    while j < spec.count
      invariant 0 <= j && (if spec.count < 0 then j == 0 else j <= spec.count)
      invariant |ps| == |placed| + j && LaidOut(ps, d, all)
      invariant nextWay == Sum(placed + Copies(spec.ways, j))
    {
      NextWidth(all, placed, spec.ways, j, spec.count);
      var p := MakePartition(d, |ps|, nextWay, spec.ways, all);
      LaidOutNext(ps, d, all, p);
      ps := ps + [p];
      nextWay := nextWay + spec.ways;
      j := j + 1;
    }
  }

  /** The partitions of one domain; the way and the index run on across the tiers. */
  method PartitionDomain(d: Domain, specs: seq<PartitionSpec>) returns (ps: seq<CachePartition>)
    ensures DomainLaidOut(ps, d, specs)
  {
    ps := [];
    var startWay, i := 0, 0;
    while i < |specs|
      invariant i <= |specs|
      invariant |ps| == |Widths(specs[..i])| && LaidOut(ps, d, Widths(specs))
      invariant startWay == Sum(Widths(specs[..i]))
    {
      assert specs[..i + 1][..i] == specs[..i];
      WidthsGrow(specs, i + 1);
      ps, startWay := PartitionTier(d, specs[i], ps, startWay, Widths(specs[..i]), Widths(specs));
      i := i + 1;
    }
    assert specs[..i] == specs;
  }

  /** Where the next partition of a tier stands in the whole layout. */
  lemma NextWidth(all: seq<int>, before: seq<int>, ways: int, j: nat, count: int)
    requires j < count && before + Copies(ways, count) <= all
    ensures var ws := before + Copies(ways, j);
      && before + Copies(ways, j + 1) == ws + [ways] <= all
      && |ws| < |all| && all[..|ws|] == ws && all[|ws|] == ways
      && Sum(before + Copies(ways, j + 1)) == Sum(ws) + ways
  {
    var ws := before + Copies(ways, j);
    CopiesGrow(ways, j + 1, count);
    assert before + Copies(ways, j + 1) == ws + [ways];
    assert (ws + [ways])[..|ws|] == ws;
    assert (ws + [ways])[|ws|] == ways;
  }

  lemma {:induction false} WidthsGrow(specs: seq<PartitionSpec>, i: nat)
    requires i <= |specs|
    ensures Widths(specs[..i]) <= Widths(specs)
    decreases |specs| - i
  {
    if i == |specs| {
      assert specs[..i] == specs;
    } else {
      WidthsGrow(specs, i + 1);
      assert specs[..i + 1][..i] == specs[..i];
    }
  }

  lemma {:induction false} CopiesGrow(ways: int, i: nat, count: int)
    requires i <= count
    ensures Copies(ways, i) <= Copies(ways, count)
    decreases count - i
  {
    if i < count { CopiesGrow(ways, i + 1, count); }
  }

  /** The first domains are laid out. */
  ghost predicate AllLaidOut(all: seq<seq<CachePartition>>, info: CATInfo, totalWays: int, numa: Option<map<int, int>>,
                             size: Option<map<int, int>>, cpu: Option<map<int, string>>, specs: seq<PartitionSpec>) {
    |all| <= |info.cacheIDs| && forall i | 0 <= i < |all| ::
      DomainLaidOut(all[i], DomainOf(info, totalWays, info.cacheIDs[i], numa, size, cpu), specs)
  }

  lemma AllLaidOutNext(all: seq<seq<CachePartition>>, ps: seq<CachePartition>, info: CATInfo, totalWays: int,
                       numa: Option<map<int, int>>, size: Option<map<int, int>>, cpu: Option<map<int, string>>,
                       specs: seq<PartitionSpec>)
    requires |all| < |info.cacheIDs| && AllLaidOut(all, info, totalWays, numa, size, cpu, specs)
    requires DomainLaidOut(ps, DomainOf(info, totalWays, info.cacheIDs[|all|], numa, size, cpu), specs)
    ensures AllLaidOut(all + [ps], info, totalWays, numa, size, cpu, specs)
  {
  }

  /** Exactly the values the caller passed for the partition's own domain. */
  ghost predicate FieldsOf(p: CachePartition, info: CATInfo, numa: Option<map<int, int>>,
                           size: Option<map<int, int>>, cpu: Option<map<int, string>>) {
    var c, n := p.cacheID, Popcount(info.cbmMask);
    && p.totalWays == n && p.minCBMBits == info.minCBMBits && p.level == "L3"
    && (if size.Some? && c in size.value && 0 < size.value[c] && 0 < n
        then p.waySizeBytes == size.value[c] / n else p.waySizeBytes == 0)
    && p.sizeBytes == p.ways * p.waySizeBytes
    && (if numa.Some? && c in numa.value then p.numaNode == numa.value[c] else p.numaNode == -1)
    && (if cpu.Some? && c in cpu.value then p.cpuList == cpu.value[c] else p.cpuList == "")
  }

  lemma FieldsAt(info: CATInfo, ws: seq<int>, numa: Option<map<int, int>>, size: Option<map<int, int>>,
                 cpu: Option<map<int, string>>, c: int, j: nat)
    requires j < |ws|
    ensures FieldsOf(PartitionAt(DomainOf(info, Popcount(info.cbmMask), c, numa, size, cpu), ws, j),
                     info, numa, size, cpu)
  {
    NoWayNoSize(ws[j], DomainOf(info, Popcount(info.cbmMask), c, numa, size, cpu).waySizeBytes);
  }

  lemma NoWayNoSize(ways: int, waySize: int)
    ensures waySize == 0 ==> ways * waySize == 0
  {
  }

  ghost predicate AllFieldsOf(all: seq<seq<CachePartition>>, info: CATInfo, numa: Option<map<int, int>>,
                              size: Option<map<int, int>>, cpu: Option<map<int, string>>) {
    forall page, p | page in all && p in page :: FieldsOf(p, info, numa, size, cpu)
  }

  lemma LaidOutFields(all: seq<seq<CachePartition>>, info: CATInfo, numa: Option<map<int, int>>,
                      size: Option<map<int, int>>, cpu: Option<map<int, string>>, specs: seq<PartitionSpec>)
    requires AllLaidOut(all, info, Popcount(info.cbmMask), numa, size, cpu, specs)
    ensures AllFieldsOf(all, info, numa, size, cpu)
  {
    forall page, p | page in all && p in page ensures FieldsOf(p, info, numa, size, cpu) {
      var i :| 0 <= i < |all| && all[i] == page;
      var j :| 0 <= j < |page| && page[j] == p;
      assert DomainLaidOut(page, DomainOf(info, Popcount(info.cbmMask), info.cacheIDs[i], numa, size, cpu), specs);
      FieldsAt(info, Widths(specs), numa, size, cpu, info.cacheIDs[i], j);
    }
  }

  /** `PartitionCache`: exactly the laid-out partitions of every domain when the tiers
      are accepted, an error otherwise. */
  method PartitionCache(info: CATInfo, specs: seq<PartitionSpec>, numa: Option<map<int, int>>,
                        size: Option<map<int, int>>, cpu: Option<map<int, string>>)
    returns (r: Result<seq<seq<CachePartition>>, PartitionError>)
    ensures r.Ok? <==> Accepted(info, Popcount(info.cbmMask), specs)
    ensures r.Err? ==> FailsWith(info, Popcount(info.cbmMask), specs, r.error)
    ensures r.Ok? ==> |r.value| == |info.cacheIDs|
    ensures r.Ok? ==> AllLaidOut(r.value, info, Popcount(info.cbmMask), numa, size, cpu, specs)
    ensures r.Ok? ==> AllFieldsOf(r.value, info, numa, size, cpu)
  {
    if |specs| == 0 {
      return Err(NoSpecs);
    }
    var totalWays := NumWays(info.cbmMask);
    var e := Validate(info, totalWays, specs);
    if e.Some? {
      return Err(e.value);
    }
    var all := PartitionDomains(info, totalWays, specs, numa, size, cpu);
    LaidOutFields(all, info, numa, size, cpu, specs);
    return Ok(all);
  }

  /** The layout of every domain. */
  method PartitionDomains(info: CATInfo, totalWays: int, specs: seq<PartitionSpec>, numa: Option<map<int, int>>,
                          size: Option<map<int, int>>, cpu: Option<map<int, string>>)
    returns (all: seq<seq<CachePartition>>)
    ensures |all| == |info.cacheIDs| && AllLaidOut(all, info, totalWays, numa, size, cpu, specs)
  {
    all := [];
    var i := 0;
    while i < |info.cacheIDs|
      invariant |all| == i <= |info.cacheIDs|
      invariant AllLaidOut(all, info, totalWays, numa, size, cpu, specs)
    {
      var d := DomainOf(info, totalWays, info.cacheIDs[i], numa, size, cpu);
      var ps := PartitionDomain(d, specs);
      AllLaidOutNext(all, ps, info, totalWays, numa, size, cpu, specs);
      all := all + [ps];
      i := i + 1;
    }
  }

  /** `SpecsFromCount`: as equal as possible, none for a count that is not positive. */
  function SpecsFromCount(count: int, totalWays: nat): seq<PartitionSpec> {
    if count <= 0 then [] else
      var base, remainder := totalWays / count, totalWays % count;
      (if remainder > 0 then [PartitionSpec(base + 1, remainder)] else [])
      + [PartitionSpec(base, count - remainder)]
  }
}
