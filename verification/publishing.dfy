/** The devices published in inventory mode, and which of them can ever be granted. */
module Publishing {
  import opened Results
  import opened GoText
  import opened Names
  import opened Partitioning
  import opened Ownership
  import opened Inventory

  function MBADeviceID(p: CachePartition): string {
    "mba" + Decimal(p.cacheID) + "-part" + Decimal(p.index)
  }

  function SMBADeviceID(p: CachePartition): string {
    "smba" + Decimal(p.cacheID) + "-part" + Decimal(p.index)
  }

  /** The devices of one partition: the cache partition, and bandwidth when throttled. */
  function DeviceNames(p: CachePartition): seq<string> {
    [p.id] + (if p.mbaThrottle > 0 then [MBADeviceID(p)] else [])
    + (if p.smbaThrottle > 0 then [SMBADeviceID(p)] else [])
  }

  /** `AllPartitions`. */
  method AllPartitions(perCache: seq<seq<CachePartition>>) returns (all: seq<CachePartition>)
    ensures all == Flatten(perCache)
  {
    all := [];
    var i := 0;
    while i < |perCache|
      invariant i <= |perCache|
      invariant all == Flatten(perCache[..i])
    {
      assert perCache[..i + 1][..i] == perCache[..i];
      all := all + perCache[i];
      i := i + 1;
    }
    assert perCache[..i] == perCache;
  }

  /** `buildDevices`, by name. */
  method BuildDevices(perCache: seq<seq<CachePartition>>) returns (names: seq<string>)
    ensures names == Collect(DeviceNames, Flatten(perCache))
    ensures forall name :: name in names <==> exists page, p | page in perCache && p in page :: NamedBy(p, name)
  {
    var all := AllPartitions(perCache);
    names := [];
    var k := 0;
    while k < |all|
      invariant k <= |all|
      invariant names == Collect(DeviceNames, all[..k])
    {
      CollectTo(DeviceNames, all, k);
      var more := PartitionDevices(all[k]);
      names := names + more;
      k := k + 1;
    }
    assert all[..k] == all;
    forall name ensures name in names <==> exists page, p | page in perCache && p in page :: NamedBy(p, name) {
      AllPublishedIff(perCache, name);
    }
  }

  /** The loop body of `buildDevices`. */
  method PartitionDevices(p: CachePartition) returns (names: seq<string>)
    ensures names == DeviceNames(p)
  {
    names := [p.id];
    if p.mbaThrottle > 0 {
      names := names + [MBADeviceID(p)];
    }
    if p.smbaThrottle > 0 {
      names := names + [SMBADeviceID(p)];
    }
  }

  /** The names a partition is published under: its own, and one for each kind of
      bandwidth that is throttled. */
  predicate NamedBy(p: CachePartition, name: string) {
    || name == p.id
    || (p.mbaThrottle > 0 && name == MBADeviceID(p))
    || (p.smbaThrottle > 0 && name == SMBADeviceID(p))
  }

  /** How many of the partitions are throttled in memory bandwidth. */
  function ThrottledMBA(ps: seq<CachePartition>): nat {
    if |ps| == 0 then 0 else ThrottledMBA(ps[..|ps| - 1]) + if ps[|ps| - 1].mbaThrottle > 0 then 1 else 0
  }

  /** And in slow memory bandwidth. */
  function ThrottledSMBA(ps: seq<CachePartition>): nat {
    if |ps| == 0 then 0 else ThrottledSMBA(ps[..|ps| - 1]) + if ps[|ps| - 1].smbaThrottle > 0 then 1 else 0
  }

  /** What is published: every partition once, and once more for each kind of bandwidth
      that is throttled, under exactly these names. */
  lemma {:induction false} PublishedIff(ps: seq<CachePartition>, name: string)
    ensures name in Collect(DeviceNames, ps) <==> exists p | p in ps :: NamedBy(p, name)
    ensures |Collect(DeviceNames, ps)| == |ps| + ThrottledMBA(ps) + ThrottledSMBA(ps)
  {
    if |ps| != 0 {
      var before, last := ps[..|ps| - 1], ps[|ps| - 1];
      PublishedIff(before, name);
      assert ps == before + [last];
      assert name in DeviceNames(last) <==> NamedBy(last, name);
    }
  }

  /** The same for all domains together. */
  lemma AllPublishedIff(perCache: seq<seq<CachePartition>>, name: string)
    ensures name in Collect(DeviceNames, Flatten(perCache))
      <==> exists page, p | page in perCache && p in page :: NamedBy(p, name)
  {
    PublishedIff(Flatten(perCache), name);
    forall p: CachePartition ensures p in Flatten(perCache) <==> exists page | page in perCache :: p in page {
      FlatMember(perCache, p);
    }
  }

  lemma PartitionStart(cacheID: int, index: int)
    ensures "cache" <= PartitionID(cacheID, index)
  {
    PrefixedWith("cache", Decimal(cacheID) + "-part" + Decimal(index));
    Regroup("cache", Decimal(cacheID), "-part", Decimal(index));
  }

  lemma BandwidthStart(p: CachePartition)
    ensures "mba" <= MBADeviceID(p) && "smba" <= SMBADeviceID(p)
    ensures !("cache" <= MBADeviceID(p)) && !("cache" <= SMBADeviceID(p))
  {
    assert MBADeviceID(p)[0] == 'm' && SMBADeviceID(p)[0] == 's' && "cache"[0] == 'c';
  }

  lemma KindOfName(p: CachePartition, name: string)
    requires Named(p) && name in DeviceNames(p)
    ensures if "cache" <= name then name == p.id else "mba" <= name || "smba" <= name
  {
    BandwidthStart(p);
    PartitionStart(p.cacheID, p.index);
  }

  lemma KnownForever(ps: seq<CachePartition>, p: CachePartition, ops: seq<Op>, driverName: string, nodeName: string)
    requires p in ps
    ensures p.id in ApplyAll(Entries(ps), ops, driverName, nodeName)
  {
    FreshEntries(ps);
    PartitionsSplit(Entries(ps), ops, driverName, nodeName);
    assert p.id in ApplyAll(Entries(ps), ops, driverName, nodeName).Keys;
  }

  /** A published device is in the table, after any sequence of calls, if and only if it is
      a cache device; published bandwidth devices are never granted to anybody. */
  lemma PublishedIsKnownIff(ps: seq<CachePartition>, ops: seq<Op>, driverName: string, nodeName: string, name: string)
    requires (forall p | p in ps :: Named(p)) && name in Collect(DeviceNames, ps)
    ensures var t := ApplyAll(Entries(ps), ops, driverName, nodeName);
      && (name in t <==> "cache" <= name)
      && (!("cache" <= name) ==> forall uid :: !Grants(t, name, uid))
  {
    CollectMember(DeviceNames, ps, name);
    var p: CachePartition :| p in ps && name in DeviceNames(p);
    KindOfName(p, name);
    if "cache" <= name {
      KnownForever(ps, p, ops, driverName, nodeName);
    } else {
      NamedIsCacheNamed(ps);
      BandwidthDevicesStayRefused(ps, ops, driverName, nodeName, name);
    }
  }

  /** With bandwidth throttling configured such devices are published. */
  lemma BandwidthIsPublished(ps: seq<CachePartition>, p: CachePartition)
    requires p in ps
    ensures p.mbaThrottle > 0 ==> MBADeviceID(p) in Collect(DeviceNames, ps)
    ensures p.smbaThrottle > 0 ==> SMBADeviceID(p) in Collect(DeviceNames, ps)
  {
    CollectMember(DeviceNames, ps, MBADeviceID(p));
    CollectMember(DeviceNames, ps, SMBADeviceID(p));
    if p.mbaThrottle > 0 { assert MBADeviceID(p) in DeviceNames(p); }
    if p.smbaThrottle > 0 { assert SMBADeviceID(p) in DeviceNames(p); }
  }
}
