/** Inventory mode: the partition table updated in place by prepare, unprepare and
  recovery, each proved to be the corresponding function of `Ownership`. */
module Inventory {
  import opened Results
  import opened Words
  import opened GoText
  import opened Names
  import opened Partitioning
  import opened Claims
  import opened Ownership

  datatype StateError = NotFound | AlreadyAllocated(uid: string)

  /** The entries `NewAllocationState` makes for the partitions of all domains. */
  function Entries(ps: seq<CachePartition>): Table {
    if |ps| == 0 then map[]
    else Entries(ps[..|ps| - 1])[ps[|ps| - 1].id := PartitionState(ps[|ps| - 1], false, "")]
  }

  function Flatten<T>(pages: seq<seq<T>>): seq<T> {
    if |pages| == 0 then [] else Flatten(pages[..|pages| - 1]) + pages[|pages| - 1]
  }

  lemma NextEntry(before: seq<CachePartition>, parts: seq<CachePartition>, j: nat)
    requires j < |parts|
    ensures Entries(before + parts[..j + 1])
      == Entries(before + parts[..j])[parts[j].id := PartitionState(parts[j], false, "")]
  {
    assert (before + parts[..j + 1])[..|before| + j] == before + parts[..j];
  }

  lemma NextDomain<T>(pages: seq<seq<T>>, i: nat)
    requires i < |pages|
    ensures Flatten(pages[..i + 1]) == Flatten(pages[..i]) + pages[i][..|pages[i]|]
    ensures Flatten(pages[..i]) + pages[i][..0] == Flatten(pages[..i])
  {
    assert pages[..i + 1][..i] == pages[..i];
    assert pages[i][..|pages[i]|] == pages[i];
  }

  // Loops over a map: what is done grows by the key at hand.

  lemma DoneGrows(s: set<string>, todo: set<string>, id: string)
    requires id in todo
    ensures s - (todo - {id}) == (s - todo) + (if id in s then {id} else {})
    ensures |s - (todo - {id})| == |s - todo| + if id in s then 1 else 0
  {
    if id in s {
      assert s - (todo - {id}) == (s - todo) + {id};
    } else {
      assert s - (todo - {id}) == s - todo;
    }
  }

  /** The sequence lists every member of the set exactly once. */
  ghost predicate Lists(ids: seq<string>, s: set<string>) {
    |ids| == |s| && forall id :: id in ids <==> id in s
  }

  lemma ListsNext(ids: seq<string>, s: set<string>, todo: set<string>, id: string)
    requires Lists(ids, s - todo) && id in todo
    ensures Lists(if id in s then ids + [id] else ids, s - (todo - {id}))
  {
    DoneGrows(s, todo, id);
  }

  /** The partitions of the listed entries, in that order. */
  ghost predicate CopiesOf(ps: seq<CachePartition>, ids: seq<string>, t: Table) {
    |ps| == |ids| && forall i | 0 <= i < |ids| :: ids[i] in t && ps[i] == t[ids[i]].partition
  }

  /** The partitions of the entries in the set, each exactly once. */
  ghost predicate ListsPartitions(ps: seq<CachePartition>, s: set<string>, t: Table) {
    exists ids :: Lists(ids, s) && CopiesOf(ps, ids, t)
  }

  lemma CopiesNext(ps: seq<CachePartition>, ids: seq<string>, t: Table, id: string)
    requires CopiesOf(ps, ids, t) && id in t
    ensures CopiesOf(ps + [t[id].partition], ids + [id], t)
  {
  }

  lemma AllDone(s: set<string>)
    ensures s - {} == s
  {
  }

  /** One entry of `FreeAll`. */
  function Freed(p: PartitionState, uid: string): PartitionState {
    if p.isAllocated && p.claimUID == uid then p.(isAllocated := false, claimUID := "") else p
  }

  lemma OwnedMember(t: Table, uid: string, id: string)
    ensures id in OwnedBy(t, uid) <==> id in t && t[id].isAllocated && t[id].claimUID == uid
  {
  }

  /** All entries but those still to do are freed of the claim. */
  ghost predicate FreedSoFar(before: Table, now: Table, todo: set<string>, uid: string) {
    && todo <= before.Keys == now.Keys
    && (forall id | id in todo :: now[id] == before[id])
    && (forall id | id in before && id !in todo :: now[id] == Freed(before[id], uid))
  }

  lemma FreedNext(before: Table, now: Table, todo: set<string>, uid: string, id: string)
    requires FreedSoFar(before, now, todo, uid) && id in todo
    ensures FreedSoFar(before, now[id := Freed(before[id], uid)], todo - {id}, uid)
  {
  }

  lemma AllFreed(before: Table, now: Table, uid: string)
    requires FreedSoFar(before, now, {}, uid)
    ensures now == FreeAll(before, uid)
  {
  }

  lemma ReleasedCount(t: Table, uid: string, released: seq<string>)
    requires Lists(released, OwnedBy(t, uid))
    ensures |AllocatedIds(FreeAll(t, uid))| == |AllocatedIds(t)| - |released|
  {
    FreeAllCount(t, uid);
  }

  class AllocationState {
    var partitions: Table

    /** `NewAllocationState`: every partition available. */
    constructor (perCache: seq<seq<CachePartition>>)
      ensures partitions == Entries(Flatten(perCache))
      ensures AllocatedIds(partitions) == {} && Normal(partitions)
    {
      partitions := map[];
      new;
      var i := 0;
      while i < |perCache|
        invariant i <= |perCache|
        invariant partitions == Entries(Flatten(perCache[..i]))
      {
        var parts := perCache[i];
        var j := 0;
        NextDomain(perCache, i);
        while j < |parts|
          invariant j <= |parts|
          invariant partitions == Entries(Flatten(perCache[..i]) + parts[..j])
        {
          var p := parts[j];
          NextEntry(Flatten(perCache[..i]), parts, j);
          partitions := partitions[p.id := PartitionState(p, false, "")];
          j := j + 1;
        }
        i := i + 1;
      }
      assert perCache[..i] == perCache;
      FreshEntries(Flatten(perCache));
    }

    /** `Allocate`. */
    method Allocate(partitionID: string, claimUID: string) returns (r: Result<(), StateError>)
      modifies this
      ensures partitions == Take(old(partitions), partitionID, claimUID)
      ensures r.Ok? <==> Grants(old(partitions), partitionID, claimUID)
      ensures r.Ok? ==> Owner(partitions, partitionID) == Some(claimUID)
      ensures r == Err(NotFound) <==> partitionID !in old(partitions)
      ensures r.Err? && r.error.AlreadyAllocated? ==> Owner(partitions, partitionID) == Some(r.error.uid)
    {
      if partitionID !in partitions {
        return Err(NotFound);
      }
      var p := partitions[partitionID];
      if p.isAllocated {
        if p.claimUID == claimUID {
          return Ok(());
        }
        return Err(AlreadyAllocated(p.claimUID));
      }
      partitions := partitions[partitionID := p.(isAllocated := true, claimUID := claimUID)];
      return Ok(());
    }

    /** `Release`: frees a partition whoever owns it. */
    method Release(partitionID: string) returns (r: Result<(), StateError>)
      modifies this
      ensures r.Ok? <==> partitionID in old(partitions)
      ensures partitions == if r.Err? then old(partitions)
        else old(partitions)[partitionID := old(partitions)[partitionID].(isAllocated := false, claimUID := "")]
    {
      if partitionID !in partitions {
        return Err(NotFound);
      }
      partitions := partitions[partitionID := partitions[partitionID].(isAllocated := false, claimUID := "")];
      return Ok(());
    }

    /** `ReleaseByClaimUID`: exactly the claim's partitions become available. */
    method ReleaseByClaimUID(claimUID: string) returns (released: seq<string>)
      modifies this
      ensures partitions == FreeAll(old(partitions), claimUID)
      ensures Lists(released, OwnedBy(old(partitions), claimUID))
      ensures |AllocatedIds(partitions)| == |AllocatedIds(old(partitions))| - |released|
    {
      released := [];
      ghost var t := partitions;
      ghost var owned := OwnedBy(t, claimUID);
      var todo := partitions.Keys;
      while todo != {}
        invariant FreedSoFar(t, partitions, todo, claimUID)
        invariant Lists(released, owned - todo)
        decreases todo
      {
        var id :| id in todo;
        FreedNext(t, partitions, todo, claimUID, id);
        ListsNext(released, owned, todo, id);
        OwnedMember(t, claimUID, id);
        var freed := ReleaseIfOwned(id, claimUID);
        if freed {
          released := released + [id];
        }
        todo := todo - {id};
      }
      AllDone(owned);
      AllFreed(t, partitions, claimUID);
      ReleasedCount(t, claimUID, released);
    }

    method ReleaseIfOwned(id: string, claimUID: string) returns (freed: bool)
      requires id in partitions
      modifies this
      ensures freed <==> old(partitions)[id].isAllocated && old(partitions)[id].claimUID == claimUID
      ensures partitions == old(partitions)[id := Freed(old(partitions)[id], claimUID)]
    {
      var p := partitions[id];
      freed := p.isAllocated && p.claimUID == claimUID;
      if freed {
        partitions := partitions[id := p.(isAllocated := false, claimUID := "")];
      }
    }

    /** `AllocatedCount`. */
    method AllocatedCount() returns (count: nat)
      ensures count == |AllocatedIds(partitions)|
    {
      count := 0;
      ghost var ids := AllocatedIds(partitions);
      var todo := partitions.Keys;
      while todo != {}
        invariant todo <= partitions.Keys
        invariant count == |ids - todo|
        decreases todo
      {
        var id :| id in todo;
        DoneGrows(ids, todo, id);
        todo := todo - {id};
        if partitions[id].isAllocated {
          count := count + 1;
        }
      }
      AllDone(ids);
    }

    /** `AvailablePartitions`: a copy of every free partition, in some order. */
    method AvailablePartitions() returns (available: seq<CachePartition>)
      ensures ListsPartitions(available, AvailableIds(partitions), partitions)
    {
      ghost var ids := [];
      available := [];
      ghost var free := AvailableIds(partitions);
      var todo := partitions.Keys;
      while todo != {}
        invariant todo <= partitions.Keys
        invariant Lists(ids, free - todo) && CopiesOf(available, ids, partitions)
        decreases todo
      {
        var id :| id in todo;
        ListsNext(ids, free, todo, id);
        todo := todo - {id};
        if !partitions[id].isAllocated {
          CopiesNext(available, ids, partitions, id);
          available := available + [partitions[id].partition];
          ids := ids + [id];
        }
      }
      AllDone(free);
    }

    /** `prepareClaim`: the devices the claim ends up with; an error when there is none,
        or when the claim cannot be fetched or is not allocated. */
    method PrepareClaim(claim: Claim, driverName: string, nodeName: string) returns (resp: Option<seq<string>>)
      modifies this
      ensures partitions == TakeDevices(old(partitions), ClaimDevices(claim, driverName, nodeName), claim.uid)
      ensures var granted := GrantedDevices(old(partitions), ClaimDevices(claim, driverName, nodeName), claim.uid);
        resp == if granted == [] then None else Some(granted)
    {
      if claim.allocation.None? {
        return None;
      }
      var devices := AllocateListed(claim.allocation.value, claim.uid, driverName, nodeName);
      if |devices| == 0 {
        return None;
      }
      return Some(devices);
    }

    /** The loop over a claim's devices, in `prepareClaim` and in `recoverClaim`:
        foreign devices and devices that cannot be allocated are skipped. */
    method AllocateListed(results: seq<DeviceResult>, claimUID: string, driverName: string, nodeName: string)
      returns (devices: seq<string>)
      modifies this
      ensures var ds := DevicesOf(results, driverName, nodeName);
        && partitions == TakeDevices(old(partitions), ds, claimUID)
        && devices == GrantedDevices(old(partitions), ds, claimUID)
    {
      devices := [];
      ghost var t := partitions;
      var i := 0;
      while i < |results|
        invariant i <= |results|
        invariant partitions == TakeDevices(t, DevicesOf(results[..i], driverName, nodeName), claimUID)
        invariant devices == GrantedDevices(t, DevicesOf(results[..i], driverName, nodeName), claimUID)
      {
        var result := results[i];
        ghost var ds := DevicesOf(results[..i], driverName, nodeName);
        assert results[..i + 1][..i] == results[..i];
        i := i + 1;
        if result.driver != driverName || result.pool != nodeName {
          continue;
        }
        assert (ds + [result.device])[..|ds|] == ds;
        var r := Allocate(result.device, claimUID);
        if r.Err? {
          continue;
        }
        devices := devices + [result.device];
      }
      assert results[..i] == results;
    }

    /** `unprepareClaim`. */
    method UnprepareClaim(uid: string)
      modifies this
      ensures partitions == Apply(old(partitions), Unprepare(uid), "", "")
    {
      var released := ReleaseByClaimUID(uid);
    }

    /** `recoverClaim`: how many of the claim's devices are its own afterwards. */
    method RecoverClaim(claim: Claim, driverName: string, nodeName: string) returns (count: nat)
      modifies this
      ensures partitions == TakeDevices(old(partitions), ClaimDevices(claim, driverName, nodeName), claim.uid)
      ensures count == |GrantedDevices(old(partitions), ClaimDevices(claim, driverName, nodeName), claim.uid)|
    {
      if claim.allocation.None? {
        return 0;
      }
      var results := claim.allocation.value;
      var onNode := ClaimAllocatedOnNode(results, nodeName);
      if !onNode {
        NoPoolNoDevices(results, driverName, nodeName);
        return 0;
      }
      var devices := AllocateListed(results, claim.uid, driverName, nodeName);
      return |devices|;
    }

    /** `claimAllocatedOnNode`. */
    static method ClaimAllocatedOnNode(results: seq<DeviceResult>, nodeName: string) returns (b: bool)
      ensures b <==> exists r | r in results :: r.pool == nodeName
    {
      var i := 0;
      while i < |results|
        invariant i <= |results|
        invariant forall k | 0 <= k < i :: results[k].pool != nodeName
      {
        if results[i].pool == nodeName {
          return true;
        }
        i := i + 1;
      }
      return false;
    }

    /** `RecoverAllocations`: claims are listed page by page; the listing fails at page
        `readable`, if there is such a page. */
    method RecoverAllocations(pages: seq<seq<Claim>>, readable: nat, driverName: string, nodeName: string)
      returns (recovered: nat, ok: bool)
      requires |pages| >= 1
      modifies this
      ensures ok <==> |pages| <= readable
      ensures var listed := Flatten(pages[..if readable < |pages| then readable else |pages|]);
        && partitions == RecoverAll(old(partitions), listed, driverName, nodeName)
        && recovered == RecoveredCount(old(partitions), listed, driverName, nodeName)
    {
      recovered := 0;
      ghost var t := partitions;
      var k := 0;
      while true
        invariant k < |pages| && k <= readable
        invariant partitions == RecoverAll(t, Flatten(pages[..k]), driverName, nodeName)
        invariant recovered == RecoveredCount(t, Flatten(pages[..k]), driverName, nodeName)
        decreases |pages| - k
      {
        if k == readable {
          return recovered, false;
        }
        var n := RecoverPage(pages[k], driverName, nodeName);
        recovered := recovered + n;
        RecoverSplit(t, Flatten(pages[..k]), pages[k], driverName, nodeName);
        assert pages[..k + 1][..k] == pages[..k];
        k := k + 1;
        if k == |pages| {
          assert pages[..k] == pages;
          return recovered, true;
        }
      }
    }

    /** The claims of one page. */
    method RecoverPage(items: seq<Claim>, driverName: string, nodeName: string) returns (recovered: nat)
      modifies this
      ensures partitions == RecoverAll(old(partitions), items, driverName, nodeName)
      ensures recovered == RecoveredCount(old(partitions), items, driverName, nodeName)
    {
      recovered := 0;
      var i := 0;
      while i < |items|
        invariant i <= |items|
        invariant partitions == RecoverAll(old(partitions), items[..i], driverName, nodeName)
        invariant recovered == RecoveredCount(old(partitions), items[..i], driverName, nodeName)
      {
        assert items[..i + 1][..i] == items[..i];
        var n := RecoverClaim(items[i], driverName, nodeName);
        recovered := recovered + n;
        i := i + 1;
      }
      assert items[..i] == items;
    }
  }

  lemma {:induction false} FreshEntries(ps: seq<CachePartition>)
    ensures AllocatedIds(Entries(ps)) == {} && Normal(Entries(ps))
    ensures forall id :: id in Entries(ps) <==> exists p | p in ps :: p.id == id
  {
    if |ps| != 0 {
      var before, last := ps[..|ps| - 1], ps[|ps| - 1];
      FreshEntries(before);
      assert ps == before + [last];
      forall id ensures id in Entries(ps) <==> exists p | p in ps :: p.id == id {
        if id in Entries(before) {
          var p :| p in before && p.id == id;
          assert p in ps;
        }
        assert last in ps;
      }
    }
  }

  /** Distinct names give the table exactly one entry per partition. */
  lemma {:induction false} OneEntryEach(ps: seq<CachePartition>)
    requires forall i, j | 0 <= i < j < |ps| :: ps[i].id != ps[j].id
    ensures |Entries(ps)| == |ps|
    ensures forall i | 0 <= i < |ps| :: ps[i].id in Entries(ps) && Entries(ps)[ps[i].id].partition == ps[i]
  {
    if |ps| != 0 {
      var before, last := ps[..|ps| - 1], ps[|ps| - 1];
      OneEntryEach(before);
      NewName(before, last.id);
      NewKeySize(Entries(before), last.id, PartitionState(last, false, ""));
    }
  }

  lemma NewName(before: seq<CachePartition>, id: string)
    requires forall i | 0 <= i < |before| :: before[i].id != id
    ensures id !in Entries(before)
  {
    FreshEntries(before);
  }

  lemma NewKeySize(t: Table, id: string, p: PartitionState)
    requires id !in t
    ensures |t[id := p]| == |t| + 1
  {
    assert t[id := p].Keys == t.Keys + {id};
    assert |t[id := p]| == |t[id := p].Keys| && |t| == |t.Keys|;
  }

  // ----- one entry per partition

  /** The partitions of one domain, numbered as laid out. */
  ghost predicate Numbered(page: seq<CachePartition>, cacheID: int, n: nat) {
    |page| == n && forall k | 0 <= k < n :: page[k].cacheID == cacheID && page[k].index == k
  }

  ghost predicate Named(p: CachePartition) {
    p.id == PartitionID(p.cacheID, p.index) && p.resctrlGroup == PartitionGroup(p.cacheID, p.index)
  }

  lemma NextProduct(a: nat, n: nat)
    ensures (a + 1) * n == a * n + n
  {
  }

  lemma {:induction false} FlatMember<T>(pages: seq<seq<T>>, p: T)
    ensures p in Flatten(pages) <==> exists i :: 0 <= i < |pages| && p in pages[i]
  {
    if |pages| != 0 {
      var before, last := pages[..|pages| - 1], pages[|pages| - 1];
      FlatMember(before, p);
      if p in Flatten(before) {
        var i :| 0 <= i < |before| && p in before[i];
        assert pages[i] == before[i];
      }
      forall i | 0 <= i < |pages| && p in pages[i] ensures p in Flatten(before) || p in last {
        if i < |before| { assert before[i] == pages[i]; }
      }
    }
  }

  /** Page by page, in order. */
  lemma {:induction false} FlattenInOrder<T>(a: seq<seq<T>>, page: seq<T>, b: seq<seq<T>>)
    ensures Flatten(a + [page] + b) == Flatten(a) + page + Flatten(b)
    decreases |b|
  {
    var all := a + [page] + b;
    if |b| == 0 {
      assert all[..|all| - 1] == a;
    } else {
      var front, last := b[..|b| - 1], b[|b| - 1];
      FlattenInOrder(a, page, front);
      assert all[..|all| - 1] == a + [page] + front;
    }
  }

  lemma {:induction false} FlatSize<T>(pages: seq<seq<T>>, n: nat)
    requires forall i | 0 <= i < |pages| :: |pages[i]| == n
    ensures |Flatten(pages)| == |pages| * n
    decreases |pages|
  {
    if |pages| != 0 {
      FlatSize(pages[..|pages| - 1], n);
      NextProduct(|pages| - 1, n);
    }
  }

  /** No two partitions have the same domain and index. */
  lemma {:induction false} FlatPlacesDiffer(pages: seq<seq<CachePartition>>, cacheIDs: seq<int>, n: nat)
    requires |pages| == |cacheIDs| && forall i | 0 <= i < |pages| :: Numbered(pages[i], cacheIDs[i], n)
    requires forall i, j | 0 <= i < j < |cacheIDs| :: cacheIDs[i] != cacheIDs[j]
    ensures var flat := Flatten(pages);
      forall i, j | 0 <= i < j < |flat| :: flat[i].cacheID != flat[j].cacheID || flat[i].index != flat[j].index
    decreases |pages|
  {
    if |pages| != 0 {
      var before, last := pages[..|pages| - 1], pages[|pages| - 1];
      var flat, m := Flatten(pages), |Flatten(before)|;
      FlatPlacesDiffer(before, cacheIDs[..|pages| - 1], n);
      assert flat == Flatten(before) + last;
      assert Numbered(last, cacheIDs[|pages| - 1], n);
      forall i, j | 0 <= i < j < |flat|
        ensures flat[i].cacheID != flat[j].cacheID || flat[i].index != flat[j].index
      {
        if m <= i {
          assert flat[i] == last[i - m] && flat[j] == last[j - m];
          assert last[i - m].index == i - m && last[j - m].index == j - m;
        } else if m <= j {
          assert flat[j] == last[j - m];
          EarlierDomain(before, cacheIDs, n, flat[i]);
        } else {
          assert flat[i] == Flatten(before)[i] && flat[j] == Flatten(before)[j];
        }
      }
    }
  }

  lemma EarlierDomain(before: seq<seq<CachePartition>>, cacheIDs: seq<int>, n: nat, p: CachePartition)
    requires |before| < |cacheIDs| && forall i | 0 <= i < |before| :: Numbered(before[i], cacheIDs[i], n)
    requires forall i, j | 0 <= i < j < |cacheIDs| :: cacheIDs[i] != cacheIDs[j]
    requires p in Flatten(before)
    ensures p.cacheID != cacheIDs[|before|]
  {
    FlatMember(before, p);
    var i :| 0 <= i < |before| && p in before[i];
  }

  /** What `PartitionCache` returns is numbered and named domain by domain. */
  lemma LaidOutIsNumbered(ps: seq<CachePartition>, d: Domain, specs: seq<PartitionSpec>)
    requires DomainLaidOut(ps, d, specs)
    ensures Numbered(ps, d.cacheID, |Widths(specs)|)
    ensures forall p | p in ps :: Named(p) && p.cacheID == d.cacheID && 0 <= p.index < |Widths(specs)|
  {
  }

  lemma NamesDiffer(p: CachePartition, q: CachePartition)
    requires Named(p) && Named(q) && (p.cacheID != q.cacheID || p.index != q.index)
    requires IsInt64(p.cacheID) && IsInt64(q.cacheID) && IsInt64(p.index) && IsInt64(q.index)
    ensures p.id != q.id && p.resctrlGroup != q.resctrlGroup
  {
    PartitionNamesDiffer(p.cacheID, p.index, q.cacheID, q.index);
  }

  lemma FlatNamesDiffer(pages: seq<seq<CachePartition>>, cacheIDs: seq<int>, n: nat)
    requires |pages| == |cacheIDs| && forall i | 0 <= i < |pages| :: Numbered(pages[i], cacheIDs[i], n)
    requires forall i, p | 0 <= i < |pages| && p in pages[i] :: Named(p) && IsInt64(p.cacheID) && IsInt64(p.index)
    requires forall i, j | 0 <= i < j < |cacheIDs| :: cacheIDs[i] != cacheIDs[j]
    ensures var flat := Flatten(pages);
      forall i, j | 0 <= i < j < |flat| :: flat[i].id != flat[j].id && flat[i].resctrlGroup != flat[j].resctrlGroup
  {
    var flat := Flatten(pages);
    FlatPlacesDiffer(pages, cacheIDs, n);
    forall i, j | 0 <= i < j < |flat|
      ensures flat[i].id != flat[j].id && flat[i].resctrlGroup != flat[j].resctrlGroup
    {
      FlatMember(pages, flat[i]);
      FlatMember(pages, flat[j]);
      NamesDiffer(flat[i], flat[j]);
    }
  }

  /** The state made from the result of `PartitionCache`, for distinct domains, has exactly
      one entry per partition, under the partition's own ID, and all IDs
      and groups differ. */
  lemma OneEntryPerPartition(info: CATInfo, specs: seq<PartitionSpec>, numa: Option<map<int, int>>,
                             size: Option<map<int, int>>, cpu: Option<map<int, string>>,
                             perCache: seq<seq<CachePartition>>)
    requires |perCache| == |info.cacheIDs| && AllLaidOut(perCache, info, Popcount(info.cbmMask), numa, size, cpu, specs)
    requires (forall c | c in info.cacheIDs :: IsInt64(c)) && |Widths(specs)| <= MAX_INT64
    requires forall i, j | 0 <= i < j < |info.cacheIDs| :: info.cacheIDs[i] != info.cacheIDs[j]
    ensures var flat, t := Flatten(perCache), Entries(Flatten(perCache));
      && |t| == |flat| == |info.cacheIDs| * |Widths(specs)|
      && (forall p | p in flat :: p.id in t && t[p.id] == PartitionState(p, false, ""))
      && (forall i, p | 0 <= i < |perCache| && p in perCache[i] :: p in flat)
      && (forall i, j | 0 <= i < j < |flat| ::
            flat[i].id != flat[j].id && flat[i].resctrlGroup != flat[j].resctrlGroup)
  {
    var n, flat := |Widths(specs)|, Flatten(perCache);
    forall i | 0 <= i < |perCache|
      ensures Numbered(perCache[i], info.cacheIDs[i], n)
      ensures forall p | p in perCache[i] :: Named(p) && IsInt64(p.cacheID) && IsInt64(p.index)
    {
      assert info.cacheIDs[i] in info.cacheIDs;
      LaidOutIsNumbered(perCache[i], DomainOf(info, Popcount(info.cbmMask), info.cacheIDs[i], numa, size, cpu), specs);
    }
    FlatSize(perCache, n);
    FlatNamesDiffer(perCache, info.cacheIDs, n);
    forall i, p | 0 <= i < |perCache| && p in perCache[i] ensures p in flat {
      FlatMember(perCache, p);
    }
    OneEntryEach(flat);
    FreshStates(flat);
    forall p | p in flat ensures p.id in Entries(flat) && Entries(flat)[p.id] == PartitionState(p, false, "") {
      var i :| 0 <= i < |flat| && flat[i] == p;
    }
  }

  lemma {:induction false} FreshStates(ps: seq<CachePartition>)
    ensures forall id | id in Entries(ps) :: !Entries(ps)[id].isAllocated && Entries(ps)[id].claimUID == ""
  {
    if |ps| != 0 { FreshStates(ps[..|ps| - 1]); }
  }

  /** What partitioning distinct or repeated domains returns is named like that. */
  lemma LaidOutIsCacheNamed(info: CATInfo, specs: seq<PartitionSpec>, numa: Option<map<int, int>>,
                            size: Option<map<int, int>>, cpu: Option<map<int, string>>,
                            perCache: seq<seq<CachePartition>>)
    requires AllLaidOut(perCache, info, Popcount(info.cbmMask), numa, size, cpu, specs)
    ensures forall p | p in Flatten(perCache) :: Named(p)
    ensures CacheNamed(Flatten(perCache))
  {
    forall p | p in Flatten(perCache) ensures Named(p) {
      FlatMember(perCache, p);
      var i :| 0 <= i < |perCache| && p in perCache[i];
      LaidOutIsNumbered(perCache[i], DomainOf(info, Popcount(info.cbmMask), info.cacheIDs[i], numa, size, cpu), specs);
    }
    NamedIsCacheNamed(Flatten(perCache));
  }

  lemma NamedIsCacheNamed(ps: seq<CachePartition>)
    requires forall p | p in ps :: Named(p)
    ensures CacheNamed(ps)
  {
    forall p | p in ps ensures exists c, k :: p.id == PartitionID(c, k) {
      assert p.id == PartitionID(p.cacheID, p.index);
    }
  }

  ghost predicate CacheNamed(ps: seq<CachePartition>) {
    forall p | p in ps :: exists c, k :: p.id == PartitionID(c, k)
  }

  /** The table knows cache partitions only: no sequence of calls ever lets a claim own
      a bandwidth device. */
  lemma BandwidthDevicesStayRefused(ps: seq<CachePartition>, ops: seq<Op>, driverName: string, nodeName: string,
                                    id: string)
    requires CacheNamed(ps) && ("mba" <= id || "smba" <= id)
    ensures var t := ApplyAll(Entries(ps), ops, driverName, nodeName);
      id !in t && forall uid :: !Grants(t, id, uid)
  {
    FreshEntries(ps);
    forall p | p in ps ensures p.id != id {
      var c, k :| p.id == PartitionID(c, k);
      assert p.id[0] == 'c' && id[0] != 'c';
    }
    PartitionsSplit(Entries(ps), ops, driverName, nodeName);
    assert id !in ApplyAll(Entries(ps), ops, driverName, nodeName).Keys;
  }
}
