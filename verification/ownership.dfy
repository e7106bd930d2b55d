/** Who owns which partition in inventory mode, as a function of the calls. */
module Ownership {
  import opened Results
  import opened Partitioning
  import opened Claims

  datatype PartitionState = PartitionState(partition: CachePartition, isAllocated: bool, claimUID: string)

  type Table = map<string, PartitionState>

  function Owner(t: Table, id: string): Option<string> {
    if id in t && t[id].isAllocated then Some(t[id].claimUID) else None
  }

  function AllocatedIds(t: Table): set<string> {
    set id | id in t && t[id].isAllocated
  }

  function AvailableIds(t: Table): set<string> {
    set id | id in t && !t[id].isAllocated
  }

  function OwnedBy(t: Table, uid: string): set<string> {
    set id | id in t && Owner(t, id) == Some(uid)
  }

  /** Free partitions carry no claim. */
  predicate Normal(t: Table) {
    forall id | id in t && !t[id].isAllocated :: t[id].claimUID == ""
  }

  // ----- one device

  /** The claim gets, or already has, the partition. */
  predicate Grants(t: Table, id: string, uid: string) {
    id in t && (t[id].isAllocated ==> t[id].claimUID == uid)
  }

  function Take(t: Table, id: string, uid: string): Table {
    if id in t && !t[id].isAllocated then t[id := t[id].(isAllocated := true, claimUID := uid)] else t
  }

  function FreeAll(t: Table, uid: string): Table {
    map id | id in t ::
      if t[id].isAllocated && t[id].claimUID == uid then t[id].(isAllocated := false, claimUID := "") else t[id]
  }

  lemma TakeOwner(t: Table, id: string, uid: string, x: string)
    ensures Owner(Take(t, id, uid), x)
         == if x == id && id in t && Owner(t, x).None? then Some(uid) else Owner(t, x)
    ensures Take(t, id, uid).Keys == t.Keys
  {
  }

  // ----- the devices of a claim

  function TakeDevices(t: Table, ds: seq<string>, uid: string): Table {
    if |ds| == 0 then t else Take(TakeDevices(t, ds[..|ds| - 1], uid), ds[|ds| - 1], uid)
  }

  /** The devices of the claim that end up its own, in order. */
  function GrantedDevices(t: Table, ds: seq<string>, uid: string): seq<string> {
    if |ds| == 0 then [] else
      var before := TakeDevices(t, ds[..|ds| - 1], uid);
      GrantedDevices(t, ds[..|ds| - 1], uid) + if Grants(before, ds[|ds| - 1], uid) then [ds[|ds| - 1]] else []
  }

  /** How many of them it had already. */
  function Repeats(t: Table, ds: seq<string>, uid: string): nat {
    if |ds| == 0 then 0 else
      var before := TakeDevices(t, ds[..|ds| - 1], uid);
      Repeats(t, ds[..|ds| - 1], uid) + if Owner(before, ds[|ds| - 1]) == Some(uid) then 1 else 0
  }

  /** Exactly the free listed partitions change hands, to this claim. */
  lemma {:induction false} TakeDevicesOwner(t: Table, ds: seq<string>, uid: string, x: string)
    ensures Owner(TakeDevices(t, ds, uid), x)
         == if x in ds && x in t && Owner(t, x).None? then Some(uid) else Owner(t, x)
    ensures TakeDevices(t, ds, uid).Keys == t.Keys
  {
    if |ds| != 0 {
      var before, last := ds[..|ds| - 1], ds[|ds| - 1];
      TakeDevicesOwner(t, before, uid, x);
      TakeOwner(TakeDevices(t, before, uid), last, uid, x);
      assert ds == before + [last];
      assert x in t <==> x in TakeDevices(t, before, uid).Keys;
    }
  }

  /** Nothing is left to take when no listed partition is free. */
  lemma {:induction false} NothingToTake(t: Table, ds: seq<string>, uid: string)
    requires forall d | d in ds && d in t :: Owner(t, d).Some?
    ensures TakeDevices(t, ds, uid) == t
  {
    if |ds| != 0 {
      NothingToTake(t, ds[..|ds| - 1], uid);
      assert ds[|ds| - 1] in ds;
    }
  }

  lemma {:induction false} TakeKeepsNormal(t: Table, ds: seq<string>, uid: string)
    requires Normal(t)
    ensures Normal(TakeDevices(t, ds, uid))
  {
    if |ds| != 0 { TakeKeepsNormal(t, ds[..|ds| - 1], uid); }
  }

  lemma TakeCount(t: Table, id: string, uid: string)
    ensures AllocatedIds(Take(t, id, uid)) == AllocatedIds(t) + if id in t then {id} else {}
  {
  }

  /** The ledger of a claim: granted devices are newly owned partitions plus repeats. */
  lemma {:induction false} GrantLedger(t: Table, ds: seq<string>, uid: string)
    ensures |AllocatedIds(TakeDevices(t, ds, uid))| + Repeats(t, ds, uid)
         == |AllocatedIds(t)| + |GrantedDevices(t, ds, uid)|
  {
    if |ds| != 0 {
      GrantLedger(t, ds[..|ds| - 1], uid);
      TakeCount(TakeDevices(t, ds[..|ds| - 1], uid), ds[|ds| - 1], uid);
    }
  }

  /** The devices a prepare answers with are exactly the listed ones that the claim owns
      afterwards. */
  lemma {:induction false} GrantedAreOwned(t: Table, ds: seq<string>, uid: string, x: string)
    ensures x in GrantedDevices(t, ds, uid) <==> x in ds && Owner(TakeDevices(t, ds, uid), x) == Some(uid)
  {
    if |ds| != 0 {
      var before, last := ds[..|ds| - 1], ds[|ds| - 1];
      GrantedAreOwned(t, before, uid, x);
      TakeDevicesOwner(t, before, uid, x);
      TakeDevicesOwner(t, ds, uid, x);
      assert ds == before + [last];
    }
  }

  /** In the order the claim lists them, and as often. */
  lemma {:induction false} GrantedInOrder(t: Table, ds: seq<string>, uid: string, after: Table)
    requires forall x | x in ds :: Owner(after, x) == Owner(TakeDevices(t, ds, uid), x)
    ensures GrantedDevices(t, ds, uid) == Collect(d => if Owner(after, d) == Some(uid) then [d] else [], ds)
  {
    if |ds| != 0 {
      var before, last := ds[..|ds| - 1], ds[|ds| - 1];
      assert ds == before + [last];
      forall x | x in ds ensures x in before ==> Owner(after, x) == Owner(TakeDevices(t, before, uid), x) {
        TakeDevicesOwner(t, before, uid, x);
        TakeDevicesOwner(t, ds, uid, x);
      }
      GrantedInOrder(t, before, uid, after);
      TakeDevicesOwner(t, before, uid, last);
      TakeOwner(TakeDevices(t, before, uid), last, uid, last);
    }
  }

  // ----- release

  lemma FreeAllOwner(t: Table, uid: string, x: string)
    ensures Owner(FreeAll(t, uid), x) == if Owner(t, x) == Some(uid) then None else Owner(t, x)
    ensures FreeAll(t, uid).Keys == t.Keys
  {
  }

  lemma SplitSize<T>(a: set<T>, b: set<T>)
    requires b <= a
    ensures |a - b| == |a| - |b|
  {
    assert a == (a - b) + b;
  }

  /** The count drops by exactly the partitions the claim owned. */
  lemma FreeAllCount(t: Table, uid: string)
    ensures OwnedBy(t, uid) <= AllocatedIds(t)
    ensures AllocatedIds(FreeAll(t, uid)) == AllocatedIds(t) - OwnedBy(t, uid)
    ensures |AllocatedIds(FreeAll(t, uid))| == |AllocatedIds(t)| - |OwnedBy(t, uid)|
  {
    forall id ensures id in AllocatedIds(FreeAll(t, uid)) <==> id in AllocatedIds(t) && id !in OwnedBy(t, uid) { }
    SplitSize(AllocatedIds(t), OwnedBy(t, uid));
  }

  lemma {:induction false} TakenEntry(t: Table, ds: seq<string>, uid: string, x: string)
    requires x in t
    ensures var t' := TakeDevices(t, ds, uid);
      x in t' && (t'[x] == t[x] || (!t[x].isAllocated && t'[x] == t[x].(isAllocated := true, claimUID := uid)))
  {
    if |ds| != 0 { TakenEntry(t, ds[..|ds| - 1], uid, x); }
  }

  /** Preparing and unpreparing a claim that owned nothing restores every entry. */
  lemma PrepareUnprepareRestores(t: Table, ds: seq<string>, uid: string)
    requires Normal(t) && OwnedBy(t, uid) == {}
    ensures FreeAll(TakeDevices(t, ds, uid), uid) == t
  {
    var t' := FreeAll(TakeDevices(t, ds, uid), uid);
    forall x ensures x in t' <==> x in t {
      TakeDevicesOwner(t, ds, uid, x);
    }
    forall x | x in t ensures t'[x] == t[x] {
      TakenEntry(t, ds, uid, x);
      assert x !in OwnedBy(t, uid);
    }
  }

  // ----- recovery

  function RecoverAll(t: Table, claims: seq<Claim>, driverName: string, nodeName: string): Table {
    if |claims| == 0 then t else
      var c := claims[|claims| - 1];
      var before := RecoverAll(t, claims[..|claims| - 1], driverName, nodeName);
      TakeDevices(before, ClaimDevices(c, driverName, nodeName), c.uid)
  }

  function RecoveredCount(t: Table, claims: seq<Claim>, driverName: string, nodeName: string): nat {
    if |claims| == 0 then 0 else
      var before, c := claims[..|claims| - 1], claims[|claims| - 1];
      RecoveredCount(t, before, driverName, nodeName)
      + |GrantedDevices(RecoverAll(t, before, driverName, nodeName), ClaimDevices(c, driverName, nodeName), c.uid)|
  }

  function RecoveryRepeats(t: Table, claims: seq<Claim>, driverName: string, nodeName: string): nat {
    if |claims| == 0 then 0 else
      var before, c := claims[..|claims| - 1], claims[|claims| - 1];
      RecoveryRepeats(t, before, driverName, nodeName)
      + Repeats(RecoverAll(t, before, driverName, nodeName), ClaimDevices(c, driverName, nodeName), c.uid)
  }

  /** However the claims are cut into pages, only their concatenation matters. */
  lemma {:induction false} RecoverSplit(t: Table, a: seq<Claim>, b: seq<Claim>, driverName: string, nodeName: string)
    ensures RecoverAll(t, a + b, driverName, nodeName)
         == RecoverAll(RecoverAll(t, a, driverName, nodeName), b, driverName, nodeName)
    ensures RecoveredCount(t, a + b, driverName, nodeName)
         == RecoveredCount(t, a, driverName, nodeName)
            + RecoveredCount(RecoverAll(t, a, driverName, nodeName), b, driverName, nodeName)
    decreases |b|
  {
    if |b| == 0 {
      assert a + b == a;
    } else {
      RecoverSplit(t, a, b[..|b| - 1], driverName, nodeName);
      assert (a + b)[..|a + b| - 1] == a + b[..|b| - 1];
    }
  }

  /** An owner never changes during recovery. */
  lemma {:induction false} RecoverKeepsOwners(t: Table, claims: seq<Claim>, driverName: string, nodeName: string,
                                              x: string)
    ensures Owner(t, x).Some? ==> Owner(RecoverAll(t, claims, driverName, nodeName), x) == Owner(t, x)
    ensures RecoverAll(t, claims, driverName, nodeName).Keys == t.Keys
  {
    if |claims| != 0 {
      var before, c := claims[..|claims| - 1], claims[|claims| - 1];
      RecoverKeepsOwners(t, before, driverName, nodeName, x);
      TakeDevicesOwner(RecoverAll(t, before, driverName, nodeName), ClaimDevices(c, driverName, nodeName), c.uid, x);
    }
  }

  /** After recovery every listed known partition has an owner. */
  lemma {:induction false} ListedAreOwned(t: Table, claims: seq<Claim>, driverName: string, nodeName: string,
                                          c: Claim, d: string)
    requires c in claims && d in ClaimDevices(c, driverName, nodeName) && d in t
    ensures Owner(RecoverAll(t, claims, driverName, nodeName), d).Some?
  {
    var before, last := claims[..|claims| - 1], claims[|claims| - 1];
    var t1 := RecoverAll(t, before, driverName, nodeName);
    RecoverKeepsOwners(t, before, driverName, nodeName, d);
    TakeDevicesOwner(t1, ClaimDevices(last, driverName, nodeName), last.uid, d);
    assert d in t1.Keys;
    if c != last { ListedAreOwned(t, before, driverName, nodeName, c, d); }
  }

  /** Recovering again, from the same listing, changes nothing. */
  lemma {:induction false} RecoverIdempotent(t: Table, claims: seq<Claim>, again: seq<Claim>, driverName: string,
                                             nodeName: string)
    requires forall c | c in again :: c in claims
    ensures var r := RecoverAll(t, claims, driverName, nodeName);
      RecoverAll(r, again, driverName, nodeName) == r
    decreases |again|
  {
    if |again| != 0 {
      var r, c := RecoverAll(t, claims, driverName, nodeName), again[|again| - 1];
      RecoverIdempotent(t, claims, again[..|again| - 1], driverName, nodeName);
      PrepareAfterRecovery(t, claims, driverName, nodeName, c);
    }
  }

  /** Preparing a recovered claim changes nothing. */
  lemma PrepareAfterRecovery(t: Table, claims: seq<Claim>, driverName: string, nodeName: string, c: Claim)
    requires c in claims
    ensures var r := RecoverAll(t, claims, driverName, nodeName);
      TakeDevices(r, ClaimDevices(c, driverName, nodeName), c.uid) == r
  {
    var r, ds := RecoverAll(t, claims, driverName, nodeName), ClaimDevices(c, driverName, nodeName);
    forall d | d in ds && d in r ensures Owner(r, d).Some? {
      RecoverKeepsOwners(t, claims, driverName, nodeName, d);
      assert d in r.Keys;
      ListedAreOwned(t, claims, driverName, nodeName, c, d);
    }
    NothingToTake(r, ds, c.uid);
  }

  /** No partition is listed by claims with different UIDs. */
  predicate Exclusive(claims: seq<Claim>, driverName: string, nodeName: string) {
    forall i, j, d | 0 <= i < |claims| && 0 <= j < |claims| && d in ClaimDevices(claims[i], driverName, nodeName)
                     && d in ClaimDevices(claims[j], driverName, nodeName) :: claims[i].uid == claims[j].uid
  }

  lemma {:induction false} OwnerWasListed(t: Table, claims: seq<Claim>, driverName: string, nodeName: string,
                                          d: string) returns (i: nat)
    requires Owner(t, d).None? && Owner(RecoverAll(t, claims, driverName, nodeName), d).Some?
    ensures i < |claims| && d in ClaimDevices(claims[i], driverName, nodeName)
    ensures Owner(RecoverAll(t, claims, driverName, nodeName), d) == Some(claims[i].uid)
  {
    var before, c := claims[..|claims| - 1], claims[|claims| - 1];
    var t1 := RecoverAll(t, before, driverName, nodeName);
    TakeDevicesOwner(t1, ClaimDevices(c, driverName, nodeName), c.uid, d);
    if Owner(t1, d).Some? {
      i := OwnerWasListed(t, before, driverName, nodeName, d);
    } else {
      i := |claims| - 1;
    }
  }

  /** Faithful recovery on a fresh state: when no partition is listed by two claims,
      every known listed partition is owned by exactly the claim that lists it. */
  lemma RecoveryIsFaithful(t: Table, claims: seq<Claim>, driverName: string, nodeName: string, i: nat, d: string)
    requires Exclusive(claims, driverName, nodeName) && AllocatedIds(t) == {}
    requires i < |claims| && d in ClaimDevices(claims[i], driverName, nodeName) && d in t
    ensures Owner(RecoverAll(t, claims, driverName, nodeName), d) == Some(claims[i].uid)
  {
    ListedAreOwned(t, claims, driverName, nodeName, claims[i], d);
    assert d !in AllocatedIds(t);
    var j := OwnerWasListed(t, claims, driverName, nodeName, d);
  }

  /** The ledger of recovery: the returned count is the newly owned partitions plus the
      repeats, so on a fresh state it equals the allocated count exactly when no claim
      lists a partition it already has. */
  lemma {:induction false} RecoveryLedger(t: Table, claims: seq<Claim>, driverName: string, nodeName: string)
    ensures |AllocatedIds(RecoverAll(t, claims, driverName, nodeName))|
            + RecoveryRepeats(t, claims, driverName, nodeName)
         == |AllocatedIds(t)| + RecoveredCount(t, claims, driverName, nodeName)
  {
    if |claims| != 0 {
      var before, c := claims[..|claims| - 1], claims[|claims| - 1];
      RecoveryLedger(t, before, driverName, nodeName);
      GrantLedger(RecoverAll(t, before, driverName, nodeName), ClaimDevices(c, driverName, nodeName), c.uid);
    }
  }

  predicate NoDuplicates<T(==)>(s: seq<T>) {
    forall i, j | 0 <= i < j < |s| :: s[i] != s[j]
  }

  lemma {:induction false} FreshDevicesDoNotRepeat(t: Table, ds: seq<string>, uid: string)
    requires NoDuplicates(ds) && forall d | d in ds :: Owner(t, d) != Some(uid)
    ensures Repeats(t, ds, uid) == 0
  {
    if |ds| != 0 {
      var before, last := ds[..|ds| - 1], ds[|ds| - 1];
      FreshDevicesDoNotRepeat(t, before, uid);
      TakeDevicesOwner(t, before, uid, last);
      assert last in ds && last !in before;
    }
  }

  /** Claims with distinct UIDs, each listing a partition at most once, have no
      repeats, so the returned count is the allocated count. */
  lemma {:induction false} DistinctClaimsDoNotRepeat(t: Table, claims: seq<Claim>, driverName: string, nodeName: string)
    requires AllocatedIds(t) == {}
    requires forall i, j | 0 <= i < j < |claims| :: claims[i].uid != claims[j].uid
    requires forall c | c in claims :: NoDuplicates(ClaimDevices(c, driverName, nodeName))
    ensures RecoveryRepeats(t, claims, driverName, nodeName) == 0
    ensures |AllocatedIds(RecoverAll(t, claims, driverName, nodeName))|
      == RecoveredCount(t, claims, driverName, nodeName)
  {
    if |claims| != 0 {
      var before, c := claims[..|claims| - 1], claims[|claims| - 1];
      var ds := ClaimDevices(c, driverName, nodeName);
      DistinctClaimsDoNotRepeat(t, before, driverName, nodeName);
      forall d | d in ds ensures Owner(RecoverAll(t, before, driverName, nodeName), d) != Some(c.uid) {
        assert d !in AllocatedIds(t);
        if Owner(RecoverAll(t, before, driverName, nodeName), d).Some? {
          var i := OwnerWasListed(t, before, driverName, nodeName, d);
          assert before[i] == claims[i];
        }
      }
      assert c in claims;
      FreshDevicesDoNotRepeat(RecoverAll(t, before, driverName, nodeName), ds, c.uid);
    }
    RecoveryLedger(t, claims, driverName, nodeName);
  }

  // ----- whole runs

  datatype Op =
    | Prepare(claim: Claim)
    | Unprepare(uid: string)
    | Recover(claims: seq<Claim>)

  function Apply(t: Table, op: Op, driverName: string, nodeName: string): Table {
    match op
    case Prepare(c) => TakeDevices(t, ClaimDevices(c, driverName, nodeName), c.uid)
    case Unprepare(uid) => FreeAll(t, uid)
    case Recover(claims) => RecoverAll(t, claims, driverName, nodeName)
  }

  function ApplyAll(t: Table, ops: seq<Op>, driverName: string, nodeName: string): Table {
    if |ops| == 0 then t
    else Apply(ApplyAll(t, ops[..|ops| - 1], driverName, nodeName), ops[|ops| - 1], driverName, nodeName)
  }

  /** One call: an owner is kept, or freed by its own unprepare. */
  lemma OwnerStep(t: Table, op: Op, driverName: string, nodeName: string, x: string)
    requires Owner(t, x).Some?
    ensures var t' := Apply(t, op, driverName, nodeName);
      Owner(t', x) == if op == Unprepare(Owner(t, x).value) then None else Owner(t, x)
    ensures Apply(t, op, driverName, nodeName).Keys == t.Keys
  {
    match op
    case Prepare(c) => TakeDevicesOwner(t, ClaimDevices(c, driverName, nodeName), c.uid, x);
    case Unprepare(uid) => FreeAllOwner(t, uid, x);
    case Recover(claims) => RecoverKeepsOwners(t, claims, driverName, nodeName, x);
  }

  /** In every sequence of prepares, unprepares and recoveries a partition leaves its
      owner exactly when the owner's unprepare is among the calls that follow. */
  lemma {:induction false} OwnedUntilUnprepared(t: Table, ops: seq<Op>, driverName: string, nodeName: string,
                                                x: string, uid: string)
    requires Owner(t, x) == Some(uid)
    ensures Unprepare(uid) !in ops ==> Owner(ApplyAll(t, ops, driverName, nodeName), x) == Some(uid)
    ensures Owner(ApplyAll(t, ops, driverName, nodeName), x) != Some(uid) ==> Unprepare(uid) in ops
  {
    if |ops| != 0 && Unprepare(uid) !in ops {
      var before, last := ops[..|ops| - 1], ops[|ops| - 1];
      assert last in ops;
      OwnedUntilUnprepared(t, before, driverName, nodeName, x, uid);
      OwnerStep(ApplyAll(t, before, driverName, nodeName), last, driverName, nodeName, x);
    }
  }

  /** A change of owner passes through free: right after the old owner's unprepare,
      somewhere in the run, the partition belongs to nobody. */
  lemma {:induction false} OwnerChangesThroughFree(t: Table, ops: seq<Op>, driverName: string, nodeName: string,
                                                   x: string, uid: string)
    returns (k: nat)
    requires Owner(t, x) == Some(uid) && Owner(ApplyAll(t, ops, driverName, nodeName), x) != Some(uid)
    ensures k < |ops| && ops[k] == Unprepare(uid)
    ensures Owner(ApplyAll(t, ops[..k], driverName, nodeName), x) == Some(uid)
    ensures Owner(ApplyAll(t, ops[..k + 1], driverName, nodeName), x) == None
  {
    var before, last := ops[..|ops| - 1], ops[|ops| - 1];
    var t1 := ApplyAll(t, before, driverName, nodeName);
    if Owner(t1, x) == Some(uid) {
      OwnerStep(t1, last, driverName, nodeName, x);
      k := |ops| - 1;
      assert ops[..k + 1] == ops;
    } else {
      k := OwnerChangesThroughFree(t, before, driverName, nodeName, x, uid);
      assert ops[..k] == before[..k] && ops[..k + 1] == before[..k + 1];
    }
  }

  /** The known partitions never change, and at any time split into allocated and
      available ones. */
  lemma {:induction false} PartitionsSplit(t: Table, ops: seq<Op>, driverName: string, nodeName: string)
    ensures var t' := ApplyAll(t, ops, driverName, nodeName);
      && t'.Keys == t.Keys
      && AllocatedIds(t') + AvailableIds(t') == t.Keys && AllocatedIds(t') !! AvailableIds(t')
      && |AllocatedIds(t')| + |AvailableIds(t')| == |t|
      && (Normal(t) ==> Normal(t'))
  {
    if |ops| != 0 {
      PartitionsSplit(t, ops[..|ops| - 1], driverName, nodeName);
      KeysKept(ApplyAll(t, ops[..|ops| - 1], driverName, nodeName), ops[|ops| - 1], driverName, nodeName);
    }
    var t' := ApplyAll(t, ops, driverName, nodeName);
    assert AllocatedIds(t') + AvailableIds(t') == t'.Keys;
    assert |t'| == |t'.Keys| && |t| == |t.Keys|;
  }

  lemma KeysKept(t: Table, op: Op, driverName: string, nodeName: string)
    ensures Apply(t, op, driverName, nodeName).Keys == t.Keys
    ensures Normal(t) ==> Normal(Apply(t, op, driverName, nodeName))
  {
    match op
    case Prepare(c) =>
      TakeDevicesOwner(t, ClaimDevices(c, driverName, nodeName), c.uid, "");
      if Normal(t) { TakeKeepsNormal(t, ClaimDevices(c, driverName, nodeName), c.uid); }
    case Unprepare(uid) =>
    case Recover(claims) =>
      RecoverKeepsOwners(t, claims, driverName, nodeName, "");
      if Normal(t) { RecoverKeepsNormal(t, claims, driverName, nodeName); }
  }

  lemma {:induction false} RecoverKeepsNormal(t: Table, claims: seq<Claim>, driverName: string, nodeName: string)
    requires Normal(t)
    ensures Normal(RecoverAll(t, claims, driverName, nodeName))
  {
    if |claims| != 0 {
      var before, c := claims[..|claims| - 1], claims[|claims| - 1];
      RecoverKeepsNormal(t, before, driverName, nodeName);
      TakeKeepsNormal(RecoverAll(t, before, driverName, nodeName), ClaimDevices(c, driverName, nodeName), c.uid);
    }
  }
}
