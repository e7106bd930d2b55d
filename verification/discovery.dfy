/** Discovering the cache domains, and publishing one device per domain and number of
  ways with a way-pool counter per domain. */
module Discovery {
  import opened Results
  import opened Windows
  import opened Slots
  import opened GoText
  import opened Numerals
  import opened Texts
  import opened Schemata
  import opened Names
  import opened Partitioning

  // ----- discovering domains

  function SegmentID(seg: string): seq<int> {
    match IndexOf(seg, '=')
    case None => []
    case Some(eq) => match Atoi(seg[..eq]) case None => [] case Some(id) => [id]
  }

  /** The domain IDs of the first line for the resource; domain 0 when there is none. */
  function DomainIDsIn(lines: seq<string>, linePrefix: string): seq<int> {
    if lines == [] then [0] else
      var line := TrimSpace(lines[0]);
      if linePrefix <= line then Collect(SegmentID, Split(line[|linePrefix|..], ';'))
      else DomainIDsIn(lines[1..], linePrefix)
  }

  /** `discoverDomainIDs` on the text of the root schemata file. */
  method DiscoverDomainIDs(data: string, linePrefix: string) returns (ids: seq<int>)
    ensures ids == DomainIDsIn(Split(TrimSpace(data), '\n'), linePrefix)
  {
    var lines := Split(TrimSpace(data), '\n');
    var i := 0;
    assert lines[0..] == lines;
    while i < |lines|
      invariant i <= |lines|
      invariant DomainIDsIn(lines, linePrefix) == DomainIDsIn(lines[i..], linePrefix)
    {
      assert lines[i..][1..] == lines[i + 1..];
      var line := TrimSpace(lines[i]);
      i := i + 1;
      if !(linePrefix <= line) {
        continue;
      }
      ids := SegmentIDs(Split(line[|linePrefix|..], ';'));
      return;
    }
    return [0];
  }

  method SegmentIDs(segs: seq<string>) returns (ids: seq<int>)
    ensures ids == Collect(SegmentID, segs)
  {
    ids := [];
    var k := 0;
    while k < |segs|
      invariant k <= |segs|
      invariant ids == Collect(SegmentID, segs[..k])
    {
      assert segs[..k + 1] == segs[..k] + [segs[k]];
      CollectNext(SegmentID, segs[..k], segs[k]);
      var seg := segs[k];
      k := k + 1;
      var eqIdx := IndexOf(seg, '=');
      if eqIdx.None? {
        continue;
      }
      var id := Atoi(seg[..eqIdx.value]);
      if id.None? {
        continue;
      }
      ids := ids + [id.value];
    }
    assert segs[..k] == segs;
  }

  function Doms(es: seq<Entry>): (r: seq<int>)
    ensures |r| == |es| && forall i | 0 <= i < |es| :: r[i] == es[i].dom
  {
    if |es| == 0 then [] else Doms(es[..|es| - 1]) + [es[|es| - 1].dom]
  }

  lemma SegmentIDRoundTrip(e: Entry)
    requires IsInt64(e.dom)
    ensures SegmentID(Segment(e)) == [e.dom]
  {
    var s := Segment(e);
    DecimalLacks(e.dom, '=');
    IndexOfFirst(Decimal(e.dom), '=', Hex(e.mask));
    assert s[..|Decimal(e.dom)|] == Decimal(e.dom);
    DecimalRoundTrip(e.dom);
  }

  /** A segment contributes the integer in front of its first `=`, if it is one. */
  lemma SegmentIDIff(seg: string, id: int)
    ensures id in SegmentID(seg) <==> exists a: string, b: string :: IDParts(seg, a, b, id)
    ensures |SegmentID(seg)| <= 1
  {
    if i: nat :| IndexOf(seg, '=') == Some(i) {
      AtoiIff(seg[..i], id);
      assert seg == seg[..i] + "=" + seg[i + 1..];
      assert id in SegmentID(seg) ==> IDParts(seg, seg[..i], seg[i + 1..], id);
    }
    forall a: string, b: string | IDParts(seg, a, b, id) ensures id in SegmentID(seg) {
      IndexOfFirst(a, '=', b);
      assert seg[..|a|] == a;
      AtoiIff(a, id);
    }
  }

  predicate IDParts(seg: string, a: string, b: string, id: int) {
    seg == a + "=" + b && '=' !in a && ReadsAs(a, id)
  }

  predicate Matches(raw: string, linePrefix: string) {
    linePrefix <= TrimSpace(raw)
  }

  /** The first line that begins with the prefix, white space aside, decides. */
  lemma {:induction false} FirstMatchDecides(others: seq<string>, raw: string, rest: seq<string>, linePrefix: string)
    requires (forall l | l in others :: !Matches(l, linePrefix)) && Matches(raw, linePrefix)
    ensures DomainIDsIn(others + [raw] + rest, linePrefix)
      == Collect(SegmentID, Split(TrimSpace(raw)[|linePrefix|..], ';'))
  {
    var lines := others + [raw] + rest;
    if others == [] {
      assert lines[0] == raw;
    } else {
      assert others[0] in others && lines[0] == others[0];
      FirstMatchDecides(others[1..], raw, rest, linePrefix);
      assert lines[1..] == others[1..] + [raw] + rest;
    }
  }

  /** Without such a line the driver works with domain 0. */
  lemma {:induction false} NoMatchIsDomainZero(lines: seq<string>, linePrefix: string)
    requires forall l | l in lines :: !Matches(l, linePrefix)
    ensures DomainIDsIn(lines, linePrefix) == [0]
  {
    if lines != [] {
      assert lines[0] in lines;
      NoMatchIsDomainZero(lines[1..], linePrefix);
    }
  }

  /** Spaces and tabs, as the kernel aligns the resource names. */
  predicate Margin(s: string) {
    forall c | c in s :: c == ' ' || c == '\t'
  }

  /** The domains the driver works with are the domains of the kernel's L3 line, however
      it is indented and whatever other lines there are. */
  lemma DomainsOfL3Line(others: seq<string>, indent: string, es: seq<Entry>, rest: seq<string>)
    requires forall e | e in es :: IsInt64(e.dom)
    requires Margin(indent) && forall l | l in others :: !Matches(l, "L3:")
    ensures DomainIDsIn(others + [indent + L3Line(es)] + rest, "L3:") == Doms(es)
  {
    TrimmedBefore(indent, L3Line(es));
    OneL3Line(es);
    FirstMatchDecides(others, indent + L3Line(es), rest, "L3:");
  }

  lemma {:induction false} DomainsOfBodies(lines: seq<string>, linePrefix: string)
    requires linePrefix != ""
    ensures DomainIDsIn(Bodies(lines), linePrefix) == DomainIDsIn(lines, linePrefix)
  {
    if lines != [] {
      var first, rest := lines[0], lines[1..];
      DomainsOfBodies(rest, linePrefix);
      BodiesFrom(first, rest);
      assert lines == [first] + rest;
      TrimTwice(first);
      if Body(first) == [] {
        assert Bodies(lines) == Bodies(rest);
      } else {
        assert Bodies(lines)[0] == TrimSpace(first) && Bodies(lines)[1..] == Bodies(rest);
      }
    }
  }

  /** From the text of the root schemata file: its trimmed and split text gives the domains
      of its L3 line, or domain 0 when it has none. */
  lemma DomainsOfFile(others: seq<string>, indent: string, es: seq<Entry>, rest: seq<string>)
    requires (forall e | e in es :: IsInt64(e.dom)) && Margin(indent)
    requires forall l | l in others + rest :: '\n' !in l
    requires forall l | l in others :: !Matches(l, "L3:")
    ensures var text := Join(others + [indent + L3Line(es)] + rest, '\n') + "\n";
      DomainIDsIn(Split(TrimSpace(text), '\n'), "L3:") == Doms(es)
    ensures var text := Join(others, '\n') + "\n";
      others != [] ==> DomainIDsIn(Split(TrimSpace(text), '\n'), "L3:") == [0]
  {
    var lines := others + [indent + L3Line(es)] + rest;
    L3LineHasNoBreak(es);
    forall l | l in lines ensures '\n' !in l {
      if l != indent + L3Line(es) { assert l in others + rest; }
    }
    DomainsOfL3Line(others, indent, es, rest);
    DomainsOfText(lines);
    if others != [] {
      assert forall l | l in others :: l in others + rest;
      NoMatchIsDomainZero(others, "L3:");
      DomainsOfText(others);
    }
  }

  lemma DomainsOfText(lines: seq<string>)
    requires lines != [] && forall l | l in lines :: '\n' !in l
    ensures DomainIDsIn(Split(TrimSpace(Join(lines, '\n') + "\n"), '\n'), "L3:") == DomainIDsIn(lines, "L3:")
  {
    FileBodies(lines);
    DomainsOfBodies(lines, "L3:");
    DomainsOfBodies(Split(TrimSpace(Join(lines, '\n') + "\n"), '\n'), "L3:");
  }

  lemma L3LineHasNoBreak(es: seq<Entry>)
    ensures '\n' !in L3Line(es)
  {
    if es != [] {
      SegmentsAreEndings(es);
      JoinedEndings(Segments(es));
    }
  }

  lemma OneL3Line(es: seq<Entry>)
    requires forall e | e in es :: IsInt64(e.dom)
    ensures var line := TrimSpace(L3Line(es));
      "L3:" <= line && Collect(SegmentID, Split(line[3..], ';')) == Doms(es)
  {
    if es == [] {
      assert L3Line(es) == "L3:";
      TrimSolid("L3:");
      CollectOne(SegmentID, "");
    } else {
      SegmentsAreEndings(es);
      L3LineRoundTrip(es);
      TrimSolid(L3Line(es));
      assert L3Line(es)[3..] == Join(Segments(es), ';');
      SplitJoin(Segments(es), ';');
      forall i | 0 <= i < |es| ensures SegmentID(Segments(es)[i]) == [Doms(es)[i]] {
        SegmentIDRoundTrip(es[i]);
      }
      CollectSingles(SegmentID, Segments(es), Doms(es));
    }
  }

  // ----- publishing devices

  /** A published device: its name and what it draws from which counter. */
  datatype Device = Device(name: string, counterKey: string, consumes: int)

  function CounterKey(cacheID: int): string {
    "cache" + Decimal(cacheID)
  }

  /** The devices for 1 to n ways of a domain. */
  function DomainDevices(cacheID: int, n: int): seq<Device> {
    if n <= 0 then [] else DomainDevices(cacheID, n - 1) + [Device(DeviceName(cacheID, n), CounterKey(cacheID), n)]
  }

  function DevicesFor(parts: seq<CachePartition>): seq<Device> {
    if |parts| == 0 then [] else DomainDevices(parts[0].cacheID, parts[0].totalWays)
  }

  function CountersFor(perCache: seq<seq<CachePartition>>): map<string, int> {
    if |perCache| == 0 then map[] else
      var before, last := CountersFor(perCache[..|perCache| - 1]), perCache[|perCache| - 1];
      if |last| == 0 then before else before[CounterKey(last[0].cacheID) := last[0].totalWays]
  }

  /** `buildStructuredDevices`. */
  method BuildStructuredDevices(perCache: seq<seq<CachePartition>>)
    returns (devices: seq<Device>, counters: map<string, int>)
    ensures devices == Collect(DevicesFor, perCache)
    ensures counters == CountersFor(perCache)
  {
    counters := BuildCounters(perCache);
    devices := BuildDevices(perCache);
  }

  /** The shared counter set. */
  method BuildCounters(perCache: seq<seq<CachePartition>>) returns (counters: map<string, int>)
    ensures counters == CountersFor(perCache)
  {
    counters := map[];
    var i := 0;
    while i < |perCache|
      invariant i <= |perCache|
      invariant counters == CountersFor(perCache[..i])
    {
      assert perCache[..i + 1][..i] == perCache[..i];
      var parts := perCache[i];
      i := i + 1;
      if |parts| == 0 {
        continue;
      }
      counters := counters[CounterKey(parts[0].cacheID) := parts[0].totalWays];
    }
    assert perCache[..i] == perCache;
  }

  /** The devices of all domains. */
  method BuildDevices(perCache: seq<seq<CachePartition>>) returns (devices: seq<Device>)
    ensures devices == Collect(DevicesFor, perCache)
  {
    devices := [];
    var k := 0;
    while k < |perCache|
      invariant k <= |perCache|
      invariant devices == Collect(DevicesFor, perCache[..k])
    {
      CollectTo(DevicesFor, perCache, k);
      var more := BuildDevicesFor(perCache[k]);
      devices := devices + more;
      k := k + 1;
    }
    assert perCache[..k] == perCache;
  }

  /** The devices of one domain; none for a domain without partitions. */
  method BuildDevicesFor(parts: seq<CachePartition>) returns (devices: seq<Device>)
    ensures devices == DevicesFor(parts)
  {
    if |parts| == 0 {
      return [];
    }
    devices := BuildDomainDevices(parts[0].cacheID, parts[0].totalWays);
  }

  method BuildDomainDevices(cacheID: int, totalWays: int) returns (devices: seq<Device>)
    ensures devices == DomainDevices(cacheID, totalWays)
  {
    devices := [];
    var ways := 1;
    while ways <= totalWays
      invariant 1 <= ways && (ways <= totalWays + 1 || totalWays < 1)
      invariant totalWays < 1 ==> ways == 1
      invariant devices == DomainDevices(cacheID, ways - 1)
    {
      devices := devices + [Device(DeviceName(cacheID, ways), CounterKey(cacheID), ways)];
      ways := ways + 1;
    }
  }

  // ----- published devices agree with the allocator

  function DeviceAt(cacheID: int, ways: int): Device {
    Device(DeviceName(cacheID, ways), CounterKey(cacheID), ways)
  }

  lemma {:induction false} DomainDevice(cacheID: int, n: int, d: Device)
    ensures d in DomainDevices(cacheID, n)
      <==> exists w :: 1 <= w <= n && d == DeviceAt(cacheID, w)
    decreases n
  {
    if 0 < n {
      DomainDevice(cacheID, n - 1, d);
      assert d in DomainDevices(cacheID, n) <==> d in DomainDevices(cacheID, n - 1) || d == DeviceAt(cacheID, n);
    }
  }

  /** The devices of a domain come in the order of their ways, from 1 up. */
  lemma {:induction false} DeviceOfDomain(cacheID: int, n: nat, k: nat)
    requires k < n
    ensures |DomainDevices(cacheID, n)| == n && DomainDevices(cacheID, n)[k] == DeviceAt(cacheID, k + 1)
    decreases n
  {
    if k < n - 1 {
      DeviceOfDomain(cacheID, n - 1, k);
    } else if 0 < k {
      DeviceOfDomain(cacheID, n - 1, k - 1);
    }
  }

  /** On an empty domain the allocator grants exactly 1 to all of its ways. */
  lemma GrantedWhenEmpty(totals: map<int, int>, dom: int, ways: int)
    ensures AllocateResult(totals, {}, dom, ways).Ok? <==> dom in totals && 1 <= ways <= totals[dom]
  {
    if dom in totals {
      FirstFitExact(totals[dom], UsedIn({}, dom), ways);
      if 1 <= ways <= totals[dom] { assert Free(UsedIn({}, dom), 0, ways); }
    }
  }

  /** The partitions published from: one non-empty list per domain of the totals. */
  ghost predicate OnePerDomain(perCache: seq<seq<CachePartition>>, totals: map<int, int>) {
    && (forall i | 0 <= i < |perCache| :: |perCache[i]| > 0 && perCache[i][0].cacheID in totals
          && perCache[i][0].totalWays == totals[perCache[i][0].cacheID])
    && (forall d | d in totals :: exists i :: 0 <= i < |perCache| && |perCache[i]| > 0 && perCache[i][0].cacheID == d)
    && (forall d | d in totals :: 0 <= d <= MAX_INT64 && totals[d] <= MAX_INT64)
  }

  /** A device is published if and only if its name, parsed as a prepare parses it,
      is a request the allocator grants on an empty node, and it draws exactly the
      requested ways. */
  lemma PublishedIffGrantable(perCache: seq<seq<CachePartition>>, totals: map<int, int>, dom: int, ways: int)
    requires OnePerDomain(perCache, totals)
    ensures (exists d | d in Collect(DevicesFor, perCache) ::
               ParseDeviceName(d.name) == Some((dom, ways)) && d.consumes == ways && d.counterKey == CounterKey(dom))
      <==> AllocateResult(totals, {}, dom, ways).Ok?
  {
    if AllocateResult(totals, {}, dom, ways).Ok? {
      GrantableIsPublished(perCache, totals, dom, ways);
    }
    forall d | d in Collect(DevicesFor, perCache) && ParseDeviceName(d.name) == Some((dom, ways))
      ensures AllocateResult(totals, {}, dom, ways).Ok?
    {
      PublishedIsGrantable(perCache, totals, d, dom, ways);
    }
  }

  lemma GrantableIsPublished(perCache: seq<seq<CachePartition>>, totals: map<int, int>, dom: int, ways: int)
    requires OnePerDomain(perCache, totals) && AllocateResult(totals, {}, dom, ways).Ok?
    ensures var d := DeviceAt(dom, ways);
      d in Collect(DevicesFor, perCache) && ParseDeviceName(d.name) == Some((dom, ways))
  {
    GrantedWhenEmpty(totals, dom, ways);
    var i :| 0 <= i < |perCache| && |perCache[i]| > 0 && perCache[i][0].cacheID == dom;
    DomainDevice(dom, perCache[i][0].totalWays, DeviceAt(dom, ways));
    CollectMember(DevicesFor, perCache, DeviceAt(dom, ways));
    assert DeviceAt(dom, ways) in DevicesFor(perCache[i]);
    DeviceNameRoundTripIff(dom, ways);
  }

  lemma PublishedIsGrantable(perCache: seq<seq<CachePartition>>, totals: map<int, int>, d: Device, dom: int, ways: int)
    requires OnePerDomain(perCache, totals) && d in Collect(DevicesFor, perCache)
    requires ParseDeviceName(d.name) == Some((dom, ways))
    ensures AllocateResult(totals, {}, dom, ways).Ok?
  {
    CollectMember(DevicesFor, perCache, d);
    var parts: seq<CachePartition> :| parts in perCache && d in DevicesFor(parts);
    var c := parts[0].cacheID;
    DomainDevice(c, parts[0].totalWays, d);
    var w :| 1 <= w <= parts[0].totalWays && d == DeviceAt(c, w);
    DeviceNameRoundTripIff(c, w);
    GrantedWhenEmpty(totals, dom, ways);
  }

  // ----- the way-pool counters

  ghost predicate FromTotals(perCache: seq<seq<CachePartition>>, totals: map<int, int>) {
    && (forall i | 0 <= i < |perCache| :: |perCache[i]| > 0 && perCache[i][0].cacheID in totals
          && perCache[i][0].totalWays == totals[perCache[i][0].cacheID])
    && (forall d | d in totals :: IsInt64(d))
  }

  lemma SameKey(c: int, d: int)
    requires IsInt64(c) && IsInt64(d)
    ensures CounterKey(c) == CounterKey(d) <==> c == d
  {
    if CounterKey(c) == CounterKey(d) {
      SameHead("cache", "cache", Decimal(c), Decimal(d));
      DecimalInjective(c, d);
    }
  }

  lemma {:induction false} CounterIsThere(perCache: seq<seq<CachePartition>>, totals: map<int, int>, i: nat)
    requires FromTotals(perCache, totals) && i < |perCache|
    ensures CounterKey(perCache[i][0].cacheID) in CountersFor(perCache)
    decreases |perCache|
  {
    if i < |perCache| - 1 { CounterIsThere(perCache[..|perCache| - 1], totals, i); }
  }

  lemma {:induction false} CounterValue(perCache: seq<seq<CachePartition>>, totals: map<int, int>, d: int)
    requires FromTotals(perCache, totals) && d in totals && CounterKey(d) in CountersFor(perCache)
    ensures CountersFor(perCache)[CounterKey(d)] == totals[d]
  {
    var before, last := perCache[..|perCache| - 1], perCache[|perCache| - 1];
    SameKey(last[0].cacheID, d);
    if last[0].cacheID != d { CounterValue(before, totals, d); }
  }

  lemma {:induction false} CountersAreForDomains(perCache: seq<seq<CachePartition>>, totals: map<int, int>, key: string)
    requires FromTotals(perCache, totals) && key in CountersFor(perCache)
    ensures exists d | d in totals :: key == CounterKey(d)
  {
    var before, last := perCache[..|perCache| - 1], perCache[|perCache| - 1];
    if key != CounterKey(last[0].cacheID) { CountersAreForDomains(before, totals, key); }
  }

  /** The published counters are exactly the totals: one per domain, worth its ways. */
  lemma CountersAreTotals(perCache: seq<seq<CachePartition>>, totals: map<int, int>)
    requires OnePerDomain(perCache, totals)
    ensures forall d | d in totals ::
      CounterKey(d) in CountersFor(perCache) && CountersFor(perCache)[CounterKey(d)] == totals[d]
    ensures forall key | key in CountersFor(perCache) :: exists d | d in totals :: key == CounterKey(d)
  {
    forall d | d in totals
      ensures CounterKey(d) in CountersFor(perCache) && CountersFor(perCache)[CounterKey(d)] == totals[d]
    {
      var i :| 0 <= i < |perCache| && |perCache[i]| > 0 && perCache[i][0].cacheID == d;
      CounterIsThere(perCache, totals, i);
      CounterValue(perCache, totals, d);
    }
    forall key | key in CountersFor(perCache) ensures exists d | d in totals :: key == CounterKey(d) {
      CountersAreForDomains(perCache, totals, key);
    }
  }

  /** What a batch of devices draws from a counter. */
  function Drawn(batch: seq<Device>, key: string): int {
    if |batch| == 0 then 0
    else
      var last := batch[|batch| - 1];
      Drawn(batch[..|batch| - 1], key) + if last.counterKey == key then last.consumes else 0
  }

  /** What a prepare asks for when it is given the device. */
  function RequestFor(d: Device): Request {
    match ParseDeviceName(d.name)
    case None => Request(0, 0)
    case Some((cacheID, ways)) => Request(cacheID, ways)
  }

  function RequestsFor(batch: seq<Device>): (r: seq<Request>)
    ensures |r| == |batch| && forall i | 0 <= i < |batch| :: r[i] == RequestFor(batch[i])
  {
    if |batch| == 0 then [] else RequestsFor(batch[..|batch| - 1]) + [RequestFor(batch[|batch| - 1])]
  }

  ghost predicate Published(perCache: seq<seq<CachePartition>>, batch: seq<Device>) {
    forall d | d in batch :: d in Collect(DevicesFor, perCache)
  }

  /** A published device draws its ways from the counter of its domain. */
  lemma PublishedDevice(perCache: seq<seq<CachePartition>>, totals: map<int, int>, d: Device)
    requires OnePerDomain(perCache, totals) && d in Collect(DevicesFor, perCache)
    ensures var r := RequestFor(d);
      r.dom in totals && 1 <= r.ways <= totals[r.dom] && d == DeviceAt(r.dom, r.ways)
  {
    CollectMember(DevicesFor, perCache, d);
    var parts: seq<CachePartition> :| parts in perCache && d in DevicesFor(parts);
    var c := parts[0].cacheID;
    DomainDevice(c, parts[0].totalWays, d);
    var w :| 1 <= w <= parts[0].totalWays && d == DeviceAt(c, w);
    DeviceNameRoundTripIff(c, w);
  }

  lemma {:induction false} DrawnIsDemand(perCache: seq<seq<CachePartition>>, totals: map<int, int>,
                                         batch: seq<Device>, dom: int)
    requires OnePerDomain(perCache, totals) && Published(perCache, batch) && dom in totals
    ensures Drawn(batch, CounterKey(dom)) == Demand(RequestsFor(batch), dom)
  {
    if |batch| != 0 {
      var before, last := batch[..|batch| - 1], batch[|batch| - 1];
      assert last in batch;
      DrawnIsDemand(perCache, totals, before, dom);
      PublishedDevice(perCache, totals, last);
      SameKey(RequestFor(last).dom, dom);
      assert RequestsFor(batch)[..|batch| - 1] == RequestsFor(before);
    }
  }

  /** What the scheduler checks: no counter is overdrawn. */
  ghost predicate Admitted(counters: map<string, int>, batch: seq<Device>) {
    forall key | key in counters :: Drawn(batch, key) <= counters[key]
  }

  /** A batch of published devices, the same device any number of times, is granted in
      full on an empty node exactly when the published counters admit it. */
  lemma BatchAdmittedIff(perCache: seq<seq<CachePartition>>, totals: map<int, int>, batch: seq<Device>)
    requires OnePerDomain(perCache, totals) && WordSized(totals) && Published(perCache, batch)
    ensures Admitted(CountersFor(perCache), batch) <==> AllGranted(totals, RequestsFor(batch))
  {
    var counters, reqs := CountersFor(perCache), RequestsFor(batch);
    CountersAreTotals(perCache, totals);
    forall r | r in reqs ensures r.dom in totals && 1 <= r.ways {
      var i :| 0 <= i < |reqs| && reqs[i] == r;
      PublishedDevice(perCache, totals, batch[i]);
    }
    BatchGrantedIff(totals, reqs);
    forall d | d in totals ensures Drawn(batch, CounterKey(d)) == Demand(reqs, d) {
      DrawnIsDemand(perCache, totals, batch, d);
    }
    AdmittedIff(counters, totals, batch, reqs);
  }

  lemma AdmittedIff(counters: map<string, int>, totals: map<int, int>, batch: seq<Device>, reqs: seq<Request>)
    requires forall d | d in totals :: CounterKey(d) in counters && counters[CounterKey(d)] == totals[d]
    requires forall key | key in counters :: exists d | d in totals :: key == CounterKey(d)
    requires forall d | d in totals :: Drawn(batch, CounterKey(d)) == Demand(reqs, d)
    ensures Admitted(counters, batch) <==> forall d | d in totals :: Demand(reqs, d) <= totals[d]
  {
    if Admitted(counters, batch) {
      forall d | d in totals ensures Demand(reqs, d) <= totals[d] {
        assert Drawn(batch, CounterKey(d)) <= counters[CounterKey(d)];
      }
    }
  }

  /** The order of the batch is irrelevant. */
  lemma AdmittedInAnyOrder(perCache: seq<seq<CachePartition>>, totals: map<int, int>, a: seq<Device>, b: seq<Device>)
    requires OnePerDomain(perCache, totals) && WordSized(totals) && Published(perCache, a)
    requires multiset(a) == multiset(b)
    ensures AllGranted(totals, RequestsFor(a)) <==> AllGranted(totals, RequestsFor(b))
  {
    forall d | d in b ensures d in Collect(DevicesFor, perCache) {
      assert d in multiset(b);
      assert d in a;
    }
    BatchAdmittedIff(perCache, totals, a);
    BatchAdmittedIff(perCache, totals, b);
    forall key | key in CountersFor(perCache) ensures Drawn(a, key) == Drawn(b, key) {
      DrawnOrderless(a, b, key);
    }
  }

  lemma {:induction false} DrawnSplit(a: seq<Device>, b: seq<Device>, key: string)
    ensures Drawn(a + b, key) == Drawn(a, key) + Drawn(b, key)
    decreases |b|
  {
    if |b| == 0 {
      assert a + b == a;
    } else {
      DrawnSplit(a, b[..|b| - 1], key);
      assert (a + b)[..|a + b| - 1] == a + b[..|b| - 1];
    }
  }

  lemma {:induction false} DrawnOrderless(a: seq<Device>, b: seq<Device>, key: string)
    requires multiset(a) == multiset(b)
    ensures Drawn(a, key) == Drawn(b, key)
    decreases |a|
  {
    assert |a| == |multiset(a)| == |multiset(b)| == |b|;
    if |a| != 0 {
      var before, d := a[..|a| - 1], a[|a| - 1];
      assert a == before + [d];
      assert d in multiset(b);
      var k :| 0 <= k < |b| && b[k] == d;
      WithoutOne(b, k);
      DrawnOrderless(before, b[..k] + b[k + 1..], key);
      MovedToEnd(b, k, key);
    }
  }

  lemma MovedToEnd(b: seq<Device>, k: nat, key: string)
    requires k < |b|
    ensures Drawn(b, key) == Drawn(b[..k] + b[k + 1..], key) + Drawn([b[k]], key)
  {
    assert b == b[..k] + ([b[k]] + b[k + 1..]);
    DrawnSplit(b[..k], b[k + 1..], key);
    DrawnSplit(b[..k], [b[k]] + b[k + 1..], key);
    DrawnSplit([b[k]], b[k + 1..], key);
  }
}
