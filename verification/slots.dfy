/** Cache ways across all domains, and the outcome of an allocation on them. */
module Slots {
  import opened Results
  import opened Words
  import opened Windows

  /** One cache way of one cache domain. */
  datatype Slot = Slot(dom: int, way: nat)

  /** The slots a mask stands for in a domain. */
  ghost function MaskSlots(dom: int, mask: bv64): set<Slot> {
    set i | i in Ways(mask) :: Slot(dom, i)
  }

  /** The used ways of one domain. */
  ghost function UsedIn(used: set<Slot>, dom: int): set<nat> {
    set s | s in used && s.dom == dom :: s.way
  }

  datatype AllocError = UnknownDomain | BadRequest | NoRoom

  /** What `WayAllocator.Allocate` returns when `used` is in use. */
  ghost function AllocateResult(totals: map<int, int>, used: set<Slot>, dom: int, ways: int): Result<bv64, AllocError> {
    if dom !in totals then Err(UnknownDomain)
    else if ways <= 0 || ways > totals[dom] then Err(BadRequest)
    else match FirstFit(totals[dom], UsedIn(used, dom), ways)
         case None => Err(NoRoom)
         case Some(start) => Ok(Mask(start, ways))
  }

  lemma UsedInMember(used: set<Slot>, dom: int, way: nat)
    ensures way in UsedIn(used, dom) <==> Slot(dom, way) in used
  {
    var s := Slot(dom, way);
    assert s in used ==> s.way in UsedIn(used, dom);
    assert forall t | t in used && t.dom == dom && t.way == way :: t == s;
  }

  lemma MaskSlotsMember(dom: int, mask: bv64, s: Slot)
    ensures s in MaskSlots(dom, mask) <==> s.dom == dom && s.way in Ways(mask)
  {
    assert s == Slot(s.dom, s.way);
  }

  lemma UsedInMaskSlots(used: set<Slot>, dom: int, mask: bv64, d: int)
    ensures UsedIn(used + MaskSlots(dom, mask), d) == UsedIn(used, d) + if d == dom then Ways(mask) else {}
    ensures UsedIn(used - MaskSlots(dom, mask), d) == UsedIn(used, d) - if d == dom then Ways(mask) else {}
  {
    forall i: nat ensures
      && (i in UsedIn(used + MaskSlots(dom, mask), d) <==> i in UsedIn(used, d) || (d == dom && i in Ways(mask)))
      && (i in UsedIn(used - MaskSlots(dom, mask), d) <==> i in UsedIn(used, d) && !(d == dom && i in Ways(mask)))
    {
      UsedInMember(used, d, i);
      UsedInMember(used + MaskSlots(dom, mask), d, i);
      UsedInMember(used - MaskSlots(dom, mask), d, i);
      MaskSlotsMember(dom, mask, Slot(d, i));
    }
  }

  /** A grant takes only ways that were free. */
  lemma GrantIsFree(totals: map<int, int>, used: set<Slot>, dom: int, ways: int)
    requires AllocateResult(totals, used, dom, ways).Ok?
    ensures var mask := AllocateResult(totals, used, dom, ways).value;
      && MaskSlots(dom, mask) !! used
      && exists start: nat :: start + ways <= totals[dom] && mask == Mask(start, ways)
  {
    FirstFitExact(totals[dom], UsedIn(used, dom), ways);
    var start := FirstFit(totals[dom], UsedIn(used, dom), ways).value;
    WaysMask(start, ways);
    forall s | s in MaskSlots(dom, Mask(start, ways)) ensures s !in used {
      UsedInMember(used, dom, s.way);
      assert s == Slot(dom, s.way);
    }
    assert Mask(start, ways) == AllocateResult(totals, used, dom, ways).value;
  }

  /** When a request is refused, and with which error: the domain is unknown, the number of
      ways is outside 1 to its total, or no window of that many ways is free. */
  lemma RefusalIff(totals: map<int, int>, used: set<Slot>, dom: int, ways: int)
    ensures var r := AllocateResult(totals, used, dom, ways);
      && (r == Err(UnknownDomain) <==> dom !in totals)
      && (r == Err(BadRequest) <==> dom in totals && !(1 <= ways <= totals[dom]))
      && (r == Err(NoRoom) <==>
            && dom in totals && 1 <= ways <= totals[dom]
            && forall start: nat | start + ways <= totals[dom] :: !Free(UsedIn(used, dom), start, ways))
  {
    if dom in totals { FirstFitExact(totals[dom], UsedIn(used, dom), ways); }
  }

  /** A granted mask is one contiguous run of exactly the requested number of ways
      if and only if the run ends inside the 64-bit word; past the word the loop
      still reports success. */
  lemma {:induction false} GrantIsExactIff(start: nat, ways: nat)
    requires 1 <= ways
    ensures Popcount(Mask(start, ways)) == ways <==> start + ways <= WORD
  {
    WaysMask(start, ways);
    if start + ways <= WORD {
      SpanSize(start, ways);
    } else if WORD <= start {
      forall i: nat ensures !Within(start, ways, i) { }
      assert Span(start, ways) == {};
    } else {
      forall i: nat ensures Within(start, ways, i) <==> Within(start, WORD - start, i) { }
      assert Span(start, ways) == Span(start, WORD - start);
      SpanSize(start, WORD - start);
    }
  }

  // ----- runs of allocations without releases

  /** One request for a number of ways of a domain. */
  datatype Request = Request(dom: int, ways: int)

  /** The used ways after serving the requests in order, failed ones included. */
  ghost function AllocateAll(totals: map<int, int>, reqs: seq<Request>): set<Slot> {
    if |reqs| == 0 then {} else
      var used, r := AllocateAll(totals, reqs[..|reqs| - 1]), reqs[|reqs| - 1];
      match AllocateResult(totals, used, r.dom, r.ways)
      case Err(_) => used
      case Ok(mask) => used + MaskSlots(r.dom, mask)
  }

  /** The ways granted so far in a domain. */
  ghost function Granted(totals: map<int, int>, reqs: seq<Request>, dom: int): nat {
    if |reqs| == 0 then 0 else
      var before := reqs[..|reqs| - 1];
      var r := reqs[|reqs| - 1];
      Granted(totals, before, dom) +
      if r.dom == dom && AllocateResult(totals, AllocateAll(totals, before), r.dom, r.ways).Ok? && r.ways >= 0
      then r.ways else 0
  }

  /** Every domain fits in a word, as a population count of one does. */
  ghost predicate WordSized(totals: map<int, int>) {
    forall d | d in totals :: 0 <= totals[d] <= WORD
  }

  /** Perfect packing: in an allocation-only run the used ways of each domain are
      the prefix of the granted total, and the next request is served exactly when
      it asks for at least one way and no more than are free. */
  lemma {:induction false} PerfectPacking(totals: map<int, int>, reqs: seq<Request>, dom: int, ways: int)
    requires WordSized(totals) && dom in totals
    ensures var used, n := UsedIn(AllocateAll(totals, reqs), dom), Granted(totals, reqs, dom);
      && n <= totals[dom]
      && used == Prefix(n)
      && FreeBelow(used, totals[dom]) == totals[dom] - n
      && (AllocateResult(totals, AllocateAll(totals, reqs), dom, ways).Ok?
        <==> 1 <= ways <= FreeBelow(used, totals[dom]))
    decreases |reqs|
  {
    if |reqs| == 0 {
      forall i: nat ensures !Below(0, i) { }
      assert Prefix(0) == {};
    } else {
      var before, r := reqs[..|reqs| - 1], reqs[|reqs| - 1];
      PerfectPacking(totals, before, dom, r.ways);
      if AllocateResult(totals, AllocateAll(totals, before), r.dom, r.ways).Ok? {
        PackOne(totals, AllocateAll(totals, before), r, dom, Granted(totals, before, dom));
      }
    }
    var n := Granted(totals, reqs, dom);
    FreeBelowPrefix(totals[dom], n);
    FirstFitAfterPrefix(totals[dom], n, ways);
  }

  lemma PackOne(totals: map<int, int>, used: set<Slot>, r: Request, dom: int, n: nat)
    requires WordSized(totals) && dom in totals && n <= totals[dom]
    requires UsedIn(used, dom) == Prefix(n)
    requires AllocateResult(totals, used, r.dom, r.ways).Ok?
    ensures var mask := AllocateResult(totals, used, r.dom, r.ways).value;
      r.dom == dom ==> n + r.ways <= totals[dom] && UsedIn(used + MaskSlots(r.dom, mask), dom) == Prefix(n + r.ways)
    ensures var mask := AllocateResult(totals, used, r.dom, r.ways).value;
      r.dom != dom ==> UsedIn(used + MaskSlots(r.dom, mask), dom) == Prefix(n)
  {
    var mask := AllocateResult(totals, used, r.dom, r.ways).value;
    UsedInMaskSlots(used, r.dom, mask, dom);
    if r.dom == dom {
      FirstFitAfterPrefix(totals[dom], n, r.ways);
      WaysMask(n, r.ways);
    }
  }

  /** Every request of the sequence is granted. */
  ghost predicate AllGranted(totals: map<int, int>, reqs: seq<Request>) {
    |reqs| != 0 ==>
      var before, r := reqs[..|reqs| - 1], reqs[|reqs| - 1];
      AllGranted(totals, before) && AllocateResult(totals, AllocateAll(totals, before), r.dom, r.ways).Ok?
  }

  /** What the requests draw from the way-pool counter of a domain. */
  ghost function Demand(reqs: seq<Request>, dom: int): int {
    if |reqs| == 0 then 0
    else Demand(reqs[..|reqs| - 1], dom) + if reqs[|reqs| - 1].dom == dom then reqs[|reqs| - 1].ways else 0
  }

  /** Requests for published devices: a known domain and at least one way. */
  ghost predicate ForDevices(totals: map<int, int>, reqs: seq<Request>) {
    forall r | r in reqs :: r.dom in totals && 1 <= r.ways
  }

  lemma {:induction false} GrantedIsDemand(totals: map<int, int>, reqs: seq<Request>, dom: int)
    requires ForDevices(totals, reqs) && AllGranted(totals, reqs)
    ensures Granted(totals, reqs, dom) == Demand(reqs, dom)
  {
    if |reqs| != 0 { GrantedIsDemand(totals, reqs[..|reqs| - 1], dom); }
  }

  /** A batch of device requests on an empty node is granted in full, in whatever
      order, exactly when the scheduler's counters admit it: the ways drawn from
      each domain do not exceed the domain's total. */
  lemma {:induction false} BatchGrantedIff(totals: map<int, int>, reqs: seq<Request>)
    requires WordSized(totals) && ForDevices(totals, reqs)
    ensures AllGranted(totals, reqs) <==> forall d | d in totals :: Demand(reqs, d) <= totals[d]
    decreases |reqs|
  {
    if |reqs| != 0 {
      var before, r := reqs[..|reqs| - 1], reqs[|reqs| - 1];
      BatchGrantedIff(totals, before);
      assert r in reqs;
      if AllGranted(totals, before) {
        GrantedIsDemand(totals, before, r.dom);
        PerfectPacking(totals, before, r.dom, r.ways);
        assert Demand(reqs, r.dom) == Demand(before, r.dom) + r.ways;
        forall d | d in totals && d != r.dom ensures Demand(reqs, d) == Demand(before, d) { }
      } else {
        forall d | d in totals ensures Demand(before, d) <= Demand(reqs, d) { }
      }
    }
  }

  lemma {:induction false} DemandSplit(a: seq<Request>, b: seq<Request>, dom: int)
    ensures Demand(a + b, dom) == Demand(a, dom) + Demand(b, dom)
    decreases |b|
  {
    if |b| == 0 {
      assert a + b == a;
    } else {
      DemandSplit(a, b[..|b| - 1], dom);
      assert (a + b)[..|a + b| - 1] == a + b[..|b| - 1];
    }
  }

  lemma WithoutOne<T>(b: seq<T>, k: nat)
    requires k < |b|
    ensures multiset(b[..k] + b[k + 1..]) == multiset(b) - multiset{b[k]}
  {
    assert b == b[..k] + [b[k]] + b[k + 1..];
  }

  /** The order of the requests does not matter to the counters. */
  lemma {:induction false} DemandOrderless(a: seq<Request>, b: seq<Request>, dom: int)
    requires multiset(a) == multiset(b)
    ensures Demand(a, dom) == Demand(b, dom)
    decreases |a|
  {
    assert |a| == |multiset(a)| == |multiset(b)| == |b|;
    if |a| != 0 {
      var before, r := a[..|a| - 1], a[|a| - 1];
      assert a == before + [r];
      assert r in multiset(b);
      var k :| 0 <= k < |b| && b[k] == r;
      WithoutOne(b, k);
      assert b == b[..k] + ([r] + b[k + 1..]);
      DemandOrderless(before, b[..k] + b[k + 1..], dom);
      DemandSplit(b[..k], b[k + 1..], dom);
      DemandSplit(b[..k], [r] + b[k + 1..], dom);
      DemandSplit([r], b[k + 1..], dom);
      DemandSplit(before, [r], dom);
    }
  }

  /** Whether a batch of device requests is granted in full does not depend on its order. */
  lemma GrantedInAnyOrder(totals: map<int, int>, a: seq<Request>, b: seq<Request>)
    requires WordSized(totals) && ForDevices(totals, a) && multiset(a) == multiset(b)
    ensures AllGranted(totals, a) <==> AllGranted(totals, b)
  {
    forall r | r in b ensures r.dom in totals && 1 <= r.ways {
      assert r in multiset(b);
      assert r in a;
    }
    forall d | d in totals ensures Demand(a, d) == Demand(b, d) {
      DemandOrderless(a, b, d);
    }
    BatchGrantedIff(totals, a);
    BatchGrantedIff(totals, b);
  }
}
