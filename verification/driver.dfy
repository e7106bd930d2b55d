/** The structured-mode driver as it runs: a way allocator, the claim table and the
  resctrl directory, changed in place by one call at a time.

  Every method is proved to be one of the executions of the step protocol, so what
  is proved about all interleavings holds for it.
 */
module StructuredDriver {
  import opened Results
  import opened Slots
  import opened GoText
  import opened Schemata
  import opened WayAllocation
  import opened Names
  import opened Claims
  import opened Protocol
  import opened Conservation
  import opened Reservation
  import opened Prepared
  import Writing

  // ----- the resctrl directory

  /** The groups and the text of their schemata files; a directory whose file was not
      written yet has empty text. */
  ghost function Parsed(groups: map<string, string>): map<string, seq<Entry>> {
    map n | n in groups :: ParseSchemata(groups[n])
  }

  lemma EmptyFile()
    ensures ParseSchemata("") == []
  {
    assert Split("", '\n') == [""];
    CollectNext(ParseLine, [], "");
    assert [] + [""] == [""];
    assert TrimSpace("") == "";
  }

  lemma ParsedWrite(groups: map<string, string>, name: string, text: string)
    ensures Parsed(groups[name := text]) == Parsed(groups)[name := ParseSchemata(text)]
  {
  }

  lemma ParsedRemove(groups: map<string, string>, name: string)
    ensures Parsed(groups - {name}) == Parsed(groups) - {name}
  {
  }

  /** How `CreateGroup` ended: with the directory and its schemata, with the directory
      alone when there is nothing to write, without the directory, or without the
      schemata and an attempt to remove the directory. */
  datatype Creation = Created | Bare | NoDir | NotWritten(undone: bool)

  /** The groups after `CreateGroup`. */
  function GroupsAfter<T>(groups: map<string, T>, name: string, none: T, text: T, c: Creation): map<string, T> {
    var made := if name in groups then groups else groups[name := none];
    match c
    case Created => made[name := text]
    case Bare => made
    case NoDir => groups
    case NotWritten(undone) => if undone then made - {name} else made
  }

  /** Everything but this group is as before. */
  ghost predicate OnlyGroup(fs: map<string, seq<Entry>>, fs': map<string, seq<Entry>>, name: string) {
    forall n | n != name :: (n in fs <==> n in fs') && (n in fs ==> fs[n] == fs'[n])
  }

  lemma OnlyGroupAfter(fs: map<string, seq<Entry>>, name: string, none: seq<Entry>, text: seq<Entry>, c: Creation)
    ensures OnlyGroup(fs, GroupsAfter(fs, name, none, text, c), name)
  {
  }

  lemma ParsedAfter(groups: map<string, string>, name: string, text: string, c: Creation)
    ensures Parsed(GroupsAfter(groups, name, "", text, c))
      == GroupsAfter(Parsed(groups), name, [], ParseSchemata(text), c)
  {
    EmptyFile();
    ParsedAfterBlank(groups, name, "", text, c);
  }

  lemma ParsedAfterBlank(groups: map<string, string>, name: string, blank: string, text: string, c: Creation)
    requires ParseSchemata(blank) == []
    ensures Parsed(GroupsAfter(groups, name, blank, text, c))
      == GroupsAfter(Parsed(groups), name, [], ParseSchemata(text), c)
  {
    var made := if name in groups then groups else groups[name := blank];
    ParsedWrite(groups, name, blank);
    ParsedWrite(made, name, text);
    ParsedRemove(made, name);
  }

  class Resctrl {
    var groups: map<string, string>

    constructor (groups: map<string, string>)
      ensures this.groups == groups
    {
      this.groups := groups;
    }

    /** `os.MkdirAll`, which an existing directory satisfies. */
    method MkdirAll(name: string) returns (ok: bool)
      modifies this
      ensures groups == if !ok || name in old(groups) then old(groups) else old(groups)[name := ""]
    {
      ok := *;
      if ok && name !in groups {
        groups := groups[name := ""];
      }
    }

    /** `os.WriteFile` of the schemata. */
    method WriteSchemata(name: string, text: string) returns (ok: bool)
      modifies this
      ensures ok ==> name in old(groups)
      ensures groups == if ok then old(groups)[name := text] else old(groups)
    {
      ok := *;
      ok := ok && name in groups;
      if ok {
        groups := groups[name := text];
      }
    }

    /** `os.Remove` of a group directory, the effect of `DeleteGroup`. */
    method Remove(name: string) returns (ok: bool)
      modifies this
      ensures ok ==> name in old(groups)
      ensures groups == if ok then old(groups) - {name} else old(groups)
    {
      ok := *;
      ok := ok && name in groups;
      if ok {
        groups := groups - {name};
      }
    }

    /** `CreateGroup`: an error leaves the groups as they were, or without this group,
        or with a directory that could not be removed again. */
    method CreateGroup(name: string, schemata: string) returns (ok: bool, ghost c: Creation)
      modifies this
      ensures ok <==> c == Created || c == Bare
      ensures c == Bare ==> schemata == ""
      ensures c == Created || c.NotWritten? ==> schemata != ""
      ensures groups == GroupsAfter(old(groups), name, "", schemata + "\n", c)
      ensures Parsed(groups) == GroupsAfter(Parsed(old(groups)), name, [], ParseSchemata(schemata + "\n"), c)
    {
      if schemata == "" {
        ok := MkdirAll(name);
        c := if ok then Bare else NoDir;
      } else {
        ok, c := MakeGroup(name, schemata + "\n");
      }
      ParsedAfter(old(groups), name, schemata + "\n", c);
    }

    method MakeGroup(name: string, text: string) returns (ok: bool, ghost c: Creation)
      modifies this
      ensures (ok <==> c == Created) && c != Bare
      ensures groups == GroupsAfter(old(groups), name, "", text, c)
    {
      var made := MkdirAll(name);
      if !made {
        return false, NoDir;
      }
      var wrote := WriteSchemata(name, text);
      if wrote {
        return true, Created;
      }
      var removed := Remove(name);
      return false, NotWritten(removed);
    }
  }

  /** `buildStructuredSchemata` without an MBA throttle, as a prepare calls it. */
  method BuildSchemata(cacheID: int, cbm: bv64) returns (schemata: string)
    requires IsInt64(cacheID)
    ensures schemata != "" && ParseSchemata(schemata + "\n") == [Entry(cacheID, cbm)]
    ensures Writing.MaskSetting(schemata, cacheID, cbm)
  {
    schemata := BuildStructuredSchemata(cacheID, Hex(cbm), 0);
    StructuredRoundTrip(cacheID, cbm, 0);
    Writing.StructuredTextIff(schemata, cacheID, cbm);
  }

  // ----- claims

  function RequestOf(r: DeviceResult, driverName: string, nodeName: string): Option<Request> {
    if r.driver != driverName || r.pool != nodeName then None else
      match ParseDeviceName(r.device)
      case None => None
      case Some((cacheID, ways)) => Some(Request(cacheID, ways))
  }

  function RequestList(driverName: string, nodeName: string): DeviceResult -> seq<Request> {
    r => match RequestOf(r, driverName, nodeName) case None => [] case Some(request) => [request]
  }

  function DeviceList(driverName: string, nodeName: string): DeviceResult -> seq<string> {
    r => if RequestOf(r, driverName, nodeName).Some? then [r.device] else []
  }

  /** The way requests of a claim: this driver's devices on this node whose names are
      cache-way names. */
  function Requests(results: seq<DeviceResult>, driverName: string, nodeName: string): seq<Request> {
    Collect(RequestList(driverName, nodeName), results)
  }

  /** The devices those requests are for. */
  function WayDevices(results: seq<DeviceResult>, driverName: string, nodeName: string): seq<string> {
    Collect(DeviceList(driverName, nodeName), results)
  }

  lemma RequestInRange(r: DeviceResult, driverName: string, nodeName: string)
    ensures RequestOf(r, driverName, nodeName).Some? ==> IsInt64(RequestOf(r, driverName, nodeName).value.dom)
  {
  }

  lemma RequestsInRange(results: seq<DeviceResult>, driverName: string, nodeName: string)
    ensures forall r | r in Requests(results, driverName, nodeName) :: IsInt64(r.dom)
  {
    var f := RequestList(driverName, nodeName);
    forall r | r in Requests(results, driverName, nodeName) ensures IsInt64(r.dom) {
      CollectMember(f, results, r);
      var x :| x in results && r in f(x);
      RequestInRange(x, driverName, nodeName);
    }
  }

  /** No way device of the claim is passed over. */
  lemma EveryWayDeviceRequested(results: seq<DeviceResult>, driverName: string, nodeName: string, d: string)
    ensures d in WayDevices(results, driverName, nodeName)
      <==> DeviceResult(driverName, nodeName, d) in results && ParseDeviceName(d).Some?
  {
    var f := DeviceList(driverName, nodeName);
    CollectMember(f, results, d);
    if d in WayDevices(results, driverName, nodeName) {
      var x :| x in results && d in f(x);
      assert x == DeviceResult(driverName, nodeName, d);
    } else if ParseDeviceName(d).Some? {
      assert d in f(DeviceResult(driverName, nodeName, d));
    }
  }

  lemma {:induction false} MatchingLists(f: DeviceResult -> seq<Request>, g: DeviceResult -> seq<string>,
                                         p: (string, Request) -> bool, results: seq<DeviceResult>)
    requires forall r | r in results :: |f(r)| == |g(r)| <= 1 && (f(r) != [] ==> p(g(r)[0], f(r)[0]))
    ensures |Collect(f, results)| == |Collect(g, results)|
    ensures forall i | 0 <= i < |Collect(f, results)| :: p(Collect(g, results)[i], Collect(f, results)[i])
  {
    if results != [] {
      assert results[|results| - 1] in results;
      MatchingLists(f, g, p, results[..|results| - 1]);
    }
  }

  lemma DeviceMatchesRequest(r: DeviceResult, driverName: string, nodeName: string)
    ensures var requests, devices := RequestList(driverName, nodeName)(r), DeviceList(driverName, nodeName)(r);
      && |requests| == |devices| <= 1
      && (requests != [] ==> ParseDeviceName(devices[0]) == Some((requests[0].dom, requests[0].ways)))
  {
  }

  /** The devices a prepare answers with are the ones it asked the allocator for, one
      request each and in the claim's order. */
  lemma DevicesMatchRequests(results: seq<DeviceResult>, driverName: string, nodeName: string)
    ensures var devices, reqs := WayDevices(results, driverName, nodeName), Requests(results, driverName, nodeName);
      && |devices| == |reqs|
      && forall i | 0 <= i < |reqs| :: ParseDeviceName(devices[i]) == Some((reqs[i].dom, reqs[i].ways))
  {
    var p := (d: string, r: Request) => ParseDeviceName(d) == Some((r.dom, r.ways));
    var f, g := RequestList(driverName, nodeName), DeviceList(driverName, nodeName);
    forall r | r in results ensures |f(r)| == |g(r)| <= 1 && (f(r) != [] ==> p(g(r)[0], f(r)[0])) {
      DeviceMatchesRequest(r, driverName, nodeName);
    }
    MatchingLists(f, g, p, results);
    var devices, reqs := WayDevices(results, driverName, nodeName), Requests(results, driverName, nodeName);
    assert forall i | 0 <= i < |reqs| :: p(devices[i], reqs[i]);
  }

  lemma AllAsked(rs: seq<DeviceResult>, i: nat, driverName: string, nodeName: string)
    requires i == |rs|
    ensures WayDevices(rs[..i], driverName, nodeName) == WayDevices(rs, driverName, nodeName)
    ensures |WayDevices(rs, driverName, nodeName)| == |Requests(rs, driverName, nodeName)|
  {
    assert rs[..i] == rs;
    DevicesMatchRequests(rs, driverName, nodeName);
  }

  /** One more result of a claim. */
  lemma NextResult(rs: seq<DeviceResult>, i: nat, driverName: string, nodeName: string)
    requires i < |rs|
    ensures var req := RequestOf(rs[i], driverName, nodeName);
            var todo := Requests(rs[i + 1..], driverName, nodeName);
      && Requests(rs[i..], driverName, nodeName) == (if req.None? then todo else [req.value] + todo)
      && WayDevices(rs[..i + 1], driverName, nodeName)
         == WayDevices(rs[..i], driverName, nodeName) + (if req.None? then [] else [rs[i].device])
      && (req.Some? ==> IsInt64(req.value.dom) && WayDevices(rs, driverName, nodeName) != [])
  {
    var f, g := RequestList(driverName, nodeName), DeviceList(driverName, nodeName);
    CollectFrom(f, rs, i);
    CollectTo(g, rs, i);
    if g(rs[i]) != [] { CollectSome(g, rs, i); }
    assert f(rs[i]) == match RequestOf(rs[i], driverName, nodeName) case None => [] case Some(request) => [request];
    RequestInRange(rs[i], driverName, nodeName);
  }

  // ----- runs of one call

  predicate ByCall(run: seq<Action>, t: int) {
    forall i | 1 <= i < |run| :: run[i].Advance? && run[i].t == t
  }

  /** The run of a call so far, and the state it leads to. */
  ghost predicate Reaches(cfg: Config, start: State, t: int, run: seq<Action>, s: State) {
    run != [] && ByCall(run, t) && Possible(cfg, start, run) && After(cfg, start, run) == s
  }

  /** The last step of the run is a prepare returning after its last device. */
  ghost predicate Finished(cfg: Config, start: State, t: int, uid: string, run: seq<Action>) {
    && run != [] && Possible(cfg, start, run[..|run| - 1])
    && After(cfg, start, run[..|run| - 1]).threads == map[t := Allocating(uid, [])]
  }

  lemma LastStep(cfg: Config, start: State, t: int, uid: string, run: seq<Action>, s: State, a: Action)
    requires Reaches(cfg, start, t, run, s)
    ensures Finished(cfg, start, t, uid, run + [a]) <==> s.threads == map[t := Allocating(uid, [])]
  {
    assert (run + [a])[..|run + [a]| - 1] == run;
  }

  lemma NotFinished(cfg: Config, start: State, t: int, uid: string, run: seq<Action>, s: State, a: Action, th: Thread)
    requires Reaches(cfg, start, t, run, s) && s.threads == map[t := th] && th != Allocating(uid, [])
    ensures !Finished(cfg, start, t, uid, run + [a])
  {
    LastStep(cfg, start, t, uid, run, s, a);
    assert s.threads[t] == th;
  }

  // A finished prepare of a claim, seen as a call among others.

  /** The run after its first action. */
  lemma {:induction false} AfterFirst(cfg: Config, start: State, a: Action, run: seq<Action>)
    requires Possible(cfg, start, [a] + run)
    ensures Enabled(start, a) && Possible(cfg, Next(cfg, start, a), run)
    ensures After(cfg, start, [a] + run) == After(cfg, Next(cfg, start, a), run)
    decreases |run|
  {
    if run == [] {
      assert ([a] + run)[..0] == [];
      assert After(cfg, start, []) == start;
    } else {
      assert ([a] + run)[..|run|] == [a] + run[..|run| - 1];
      AfterFirst(cfg, start, a, run[..|run| - 1]);
    }
  }

  /** A call that runs alone is orderly and stays in flight until it returns. */
  lemma {:induction false} AloneInCall(cfg: Config, s: State, t: int, run: seq<Action>)
    requires Possible(cfg, s, run) && t in After(cfg, s, run).threads
    requires forall a | a in run :: a.Advance? && a.t == t
    ensures OrderlyRun(cfg, s, run) && InCall(cfg, s, run, t)
    decreases |run|
  {
    if run != [] {
      assert run[|run| - 1] in run;
      AloneInCall(cfg, s, t, run[..|run| - 1]);
    }
  }

  /** A prepare that runs alone and has served i requests. */
  lemma ServedSoFar(cfg: Config, start: State, t: int, uid: string, reqs: seq<Request>, run: seq<Action>, s: State,
                    i: nat)
    requires NamesOk(cfg) && WellFormed(cfg, start) && Isolated(start) && start.threads == map[] && IsUUID(uid)
    requires Reaches(cfg, start, t, run, s) && run[0] == BeginPrepare(t, uid, reqs)
    requires i <= |reqs| && s.threads == map[t := Allocating(uid, reqs[i..])]
    ensures ServedButFor(cfg, s, uid, reqs, i, -1)
    ensures i > 0 ==> uid in s.table && s.table[uid].dom == reqs[i - 1].dom && s.table[uid].ways == reqs[i - 1].ways
  {
    assert s.threads[t] == Allocating(uid, reqs[i..]);
    AloneProgresses(cfg, start, t, uid, reqs, run, s);
    AtRequest(cfg, s, t, uid, reqs, i);
  }

  lemma AloneProgresses(cfg: Config, start: State, t: int, uid: string, reqs: seq<Request>, run: seq<Action>, s: State)
    requires NamesOk(cfg) && WellFormed(cfg, start) && Isolated(start) && start.threads == map[] && IsUUID(uid)
    requires Reaches(cfg, start, t, run, s) && run[0] == BeginPrepare(t, uid, reqs) && t in s.threads
    ensures Progress(cfg, s, t, uid, reqs)
  {
    var meanwhile := run[1..];
    assert run == [run[0]] + meanwhile;
    AfterFirst(cfg, start, run[0], meanwhile);
    BeginIsProgress(cfg, start, t, uid, reqs);
    AloneInCall(cfg, Next(cfg, start, run[0]), t, meanwhile);
    CallProgresses(cfg, Next(cfg, start, run[0]), meanwhile, t, uid, reqs);
  }

  lemma AtRequest(cfg: Config, s: State, t: int, uid: string, reqs: seq<Request>, i: nat)
    requires Progress(cfg, s, t, uid, reqs) && i <= |reqs| && s.threads[t] == Allocating(uid, reqs[i..])
    ensures ServedButFor(cfg, s, uid, reqs, i, -1)
    ensures i > 0 ==> uid in s.table && s.table[uid].dom == reqs[i - 1].dom && s.table[uid].ways == reqs[i - 1].ways
  {
    var k: nat :| Working(cfg, s, s.threads[t], uid, reqs, k);
    assert |reqs[k..]| == |reqs[i..]|;
  }

  /** Request j is the last that was served for its domain, and the request that failed,
      if any, is for another domain. */
  predicate Survives(reqs: seq<Request>, done: nat, j: nat) {
    LastOf(reqs, done, j) && (done < |reqs| ==> reqs[j].dom != reqs[done].dom)
  }

  /** What is served stays served when the call ends: after the last request, or with a
      failure that touched only the group of the failing request's domain. */
  lemma ServedAtEnd(cfg: Config, s: State, s': State, t: int, uid: string, reqs: seq<Request>, done: nat)
    requires NamesOk(cfg) && IsUUID(uid) && done <= |reqs| && ServedButFor(cfg, s, uid, reqs, done, -1)
    requires forall r | r in reqs :: IsInt64(r.dom)
    requires s.threads == map[t := Allocating(uid, reqs[done..])] && s'.threads == map[]
    requires s'.used == s.used && s'.table == s.table
    requires if done == |reqs| then s'.fs == s.fs else OnlyGroup(s.fs, s'.fs, cfg.groupOf(reqs[done].dom, uid))
    ensures forall j: nat | Survives(reqs, done, j) :: Served(cfg, s', uid, reqs[j])
  {
    assert forall h :: Held(s', h) == Held(s, h);
    forall j: nat | Survives(reqs, done, j) ensures Served(cfg, s', uid, reqs[j]) {
      assert Served(cfg, s, uid, reqs[j]);
      var g :| GrantOk(cfg, g, uid) && g.dom == reqs[j].dom && g.ways == reqs[j].ways
        && Written(s.fs, g) && Exclusive(s, uid, g);
      assert done < |reqs| ==> reqs[done] in reqs && g.group != cfg.groupOf(reqs[done].dom, uid);
      assert Written(s'.fs, g) && Exclusive(s', uid, g);
    }
  }

  /** A grant takes at least one way. */
  lemma GrantIsNotEmpty(totals: map<int, int>, used: set<Slot>, dom: int, ways: int)
    requires WaysFit(totals) && AllocateResult(totals, used, dom, ways).Ok?
    ensures MaskSlots(dom, AllocateResult(totals, used, dom, ways).value) != {}
  {
    GrantIsFree(totals, used, dom, ways);
    var mask := AllocateResult(totals, used, dom, ways).value;
    var start: nat :| start + ways <= totals[dom] && mask == Words.Mask(start, ways);
    Words.WaysMask(start, ways);
    assert Words.Within(start, ways, start);
    MaskSlotsMember(dom, mask, Slot(dom, start));
  }

  /** One more result, seen from the claim's requests. */
  lemma NextRequest(rs: seq<DeviceResult>, i: nat, done: nat, driverName: string, nodeName: string)
    requires i < |rs| && done == |WayDevices(rs[..i], driverName, nodeName)|
    ensures var reqs, req := Requests(rs, driverName, nodeName), RequestOf(rs[i], driverName, nodeName);
      && (req.Some? ==> done < |reqs| && reqs[done] == req.value)
      && WayDevices(rs[..i + 1], driverName, nodeName)
         == WayDevices(rs[..i], driverName, nodeName) + (if req.Some? then [rs[i].device] else [])
  {
    var reqs := Requests(rs, driverName, nodeName);
    NextResult(rs, i, driverName, nodeName);
    RequestsFrom(rs, i, driverName, nodeName);
    RequestsFrom(rs, i + 1, driverName, nodeName);
    if RequestOf(rs[i], driverName, nodeName).Some? { FirstOfRest(reqs, done); }
  }

  lemma FirstOfRest(reqs: seq<Request>, done: nat)
    requires done < |reqs|
    ensures reqs[done..] == [reqs[done]] + reqs[done + 1..]
  {
  }

  /** The requests of the first results and of the rest. */
  lemma RequestsFrom(rs: seq<DeviceResult>, i: nat, driverName: string, nodeName: string)
    requires i <= |rs|
    ensures var reqs, done := Requests(rs, driverName, nodeName), |WayDevices(rs[..i], driverName, nodeName)|;
      done <= |reqs| && reqs[done..] == Requests(rs[i..], driverName, nodeName)
  {
    var f := RequestList(driverName, nodeName);
    assert rs == rs[..i] + rs[i..];
    CollectSplit(f, rs[..i], rs[i..]);
    DevicesMatchRequests(rs[..i], driverName, nodeName);
  }

  lemma Onward(cfg: Config, start: State, t: int, run: seq<Action>, s: State, ok: bool)
    requires Reaches(cfg, start, t, run, s) && Enabled(s, Advance(t, ok))
    ensures Reaches(cfg, start, t, run + [Advance(t, ok)], Step(cfg, s, t, ok))
  {
    Extend(cfg, start, run, Advance(t, ok));
  }

  // The steps of a call that runs alone, from its components to its components.

  lemma ReturnsToRest(s: State, t: int, th: Thread)
    requires s.threads == map[t := th]
    ensures Return(s, t) == s.(threads := map[])
  {
    assert map[t := th] - {t} == map[];
  }

  lemma ReleaseAlone(cfg: Config, start: State, t: int, run: seq<Action>, s: State, th: Thread)
    requires s.threads == map[t := th] && (th.GivingBack? || th.Freeing?) && Reaches(cfg, start, t, run, s)
    ensures Reaches(cfg, start, t, run + [Advance(t, true)], State(s.used - GrantSlots(th.grant), s.table, s.fs, map[]))
  {
    Onward(cfg, start, t, run, s, true);
    ReturnsToRest(s.(used := s.used - GrantSlots(th.grant)), t, th);
  }

  lemma RemoveAlone(cfg: Config, start: State, t: int, run: seq<Action>, s: State, th: Thread, ok: bool)
    requires s.threads == map[t := th] && (th.UndoingGroup? || th.RemovingGroup?) && Reaches(cfg, start, t, run, s)
    requires ok ==> th.grant.group in s.fs
    ensures Reaches(cfg, start, t, run + [Advance(t, ok)],
      State(s.used, s.table, if ok then s.fs - {th.grant.group} else s.fs, map[t := ThreadAfter(th, ok)]))
  {
    Onward(cfg, start, t, run, s, ok);
  }

  lemma SpecAlone(cfg: Config, start: State, t: int, run: seq<Action>, s: State, th: Thread, ok: bool)
    requires s.threads == map[t := th] && th.WritingSpec? && Reaches(cfg, start, t, run, s)
    ensures Reaches(cfg, start, t, run + [Advance(t, ok)], State(s.used, s.table, s.fs, map[t := ThreadAfter(th, ok)]))
  {
    Onward(cfg, start, t, run, s, ok);
  }

  lemma RecordAlone(cfg: Config, start: State, t: int, run: seq<Action>, s: State, th: Thread)
    requires s.threads == map[t := th] && th.Recording? && Reaches(cfg, start, t, run, s)
    ensures Reaches(cfg, start, t, run + [Advance(t, true)],
      State(s.used, s.table[th.uid := th.grant], s.fs, map[t := Allocating(th.uid, th.todo)]))
  {
    Onward(cfg, start, t, run, s, true);
  }

  lemma ForgetAlone(cfg: Config, start: State, t: int, run: seq<Action>, s: State, uid: string)
    requires s.threads == map[t := Forgetting(uid)] && Reaches(cfg, start, t, run, s)
    ensures Reaches(cfg, start, t, run + [Advance(t, true)],
      if uid in s.table then State(s.used, s.table - {uid}, s.fs, map[t := RemovingGroup(uid, s.table[uid])])
      else State(s.used, s.table, s.fs, map[]))
  {
    Onward(cfg, start, t, run, s, true);
    ReturnsToRest(s, t, Forgetting(uid));
  }

  lemma AllocateAlone(cfg: Config, start: State, t: int, run: seq<Action>, s: State, uid: string, req: Request,
                      todo: seq<Request>)
    requires s.threads == map[t := Allocating(uid, [req] + todo)] && Reaches(cfg, start, t, run, s)
    ensures var r := AllocateResult(cfg.totals, s.used, req.dom, req.ways);
      && (r.Err? ==> Reaches(cfg, start, t, run + [Advance(t, true)], State(s.used, s.table, s.fs, map[])))
      && (r.Ok? ==>
            var g := Grant(req.dom, req.ways, r.value, cfg.groupOf(req.dom, uid));
            Reaches(cfg, start, t, run + [Advance(t, true)],
              State(s.used + MaskSlots(req.dom, r.value), s.table, s.fs, map[t := MakingDir(uid, todo, g)])))
  {
    var r := AllocateResult(cfg.totals, s.used, req.dom, req.ways);
    assert ([req] + todo)[1..] == todo;
    assert [req] + todo != [];
    Onward(cfg, start, t, run, s, true);
    ReturnsToRest(s, t, Allocating(uid, [req] + todo));
  }

  /** Giving a fresh grant back restores what was used before. */
  lemma GrantedWereFree(totals: map<int, int>, used: set<Slot>, dom: int, ways: int)
    requires AllocateResult(totals, used, dom, ways).Ok?
    ensures var slots := MaskSlots(dom, AllocateResult(totals, used, dom, ways).value);
      used + slots - slots == used
  {
    GrantIsFree(totals, used, dom, ways);
  }

  /** Where a call is after `CreateGroup`. */
  function AfterCreate(th: Thread, c: Creation): Thread
    requires th.MakingDir?
  {
    if c == Created then WritingSpec(th.uid, th.todo, th.grant) else GivingBack(th.uid, th.grant)
  }

  lemma CreateAlone(cfg: Config, start: State, t: int, run: seq<Action>, s: State, th: Thread, c: Creation,
                    fs: map<string, seq<Entry>>) returns (run': seq<Action>)
    requires s.threads == map[t := th] && th.MakingDir? && Reaches(cfg, start, t, run, s) && c != Bare
    requires fs == GroupsAfter(s.fs, th.grant.group, [], GrantEntries(th.grant), c)
    ensures Reaches(cfg, start, t, run', State(s.used, s.table, fs, map[t := AfterCreate(th, c)]))
    ensures run <= run'
  {
    run' := CreateSteps(cfg, start, t, run, s, c);
    assert Goto(s.(fs := fs), t, AfterCreate(th, c)) == State(s.used, s.table, fs, map[t := AfterCreate(th, c)]);
  }

  lemma FinishAlone(cfg: Config, start: State, t: int, run: seq<Action>, s: State, uid: string)
    requires s.threads == map[t := Allocating(uid, [])] && Reaches(cfg, start, t, run, s)
    ensures Reaches(cfg, start, t, run + [Advance(t, true)], State(s.used, s.table, s.fs, map[]))
  {
    Onward(cfg, start, t, run, s, true);
    ReturnsToRest(s, t, Allocating(uid, []));
  }

  lemma BeginAlone(cfg: Config, start: State, t: int, a: Action)
    requires start.threads == map[] && Enabled(start, a) && (a.BeginPrepare? || a.BeginUnprepare?) && a.t == t
    ensures Reaches(cfg, start, t, [a], State(start.used, start.table, start.fs,
      map[t := if a.BeginPrepare? then Allocating(a.uid, a.reqs) else Forgetting(a.uid)]))
  {
    Extend(cfg, start, [], a);
    assert [] + [a] == [a];
  }

  /** The steps of `CreateGroup`. */
  lemma CreateSteps(cfg: Config, start: State, t: int, run: seq<Action>, s: State, c: Creation)
    returns (run': seq<Action>)
    requires Reaches(cfg, start, t, run, s) && t in s.threads && s.threads[t].MakingDir? && c != Bare
    ensures var th := s.threads[t];
            var fs := GroupsAfter(s.fs, th.grant.group, [], GrantEntries(th.grant), c);
      Reaches(cfg, start, t, run', Goto(s.(fs := fs), t, AfterCreate(th, c)))
    ensures run <= run'
  {
    var th := s.threads[t];
    var made := if th.grant.group in s.fs then s.fs else s.fs[th.grant.group := []];
    if c == NoDir {
      Onward(cfg, start, t, run, s, false);
      run' := run + [Advance(t, false)];
    } else {
      var s1 := Goto(s.(fs := made), t, WritingSchemata(th.uid, th.todo, th.grant));
      Onward(cfg, start, t, run, s, true);
      assert Step(cfg, s, t, true) == s1;
      run' := AfterMkdir(cfg, start, t, run + [Advance(t, true)], s1, c);
    }
  }

  lemma AfterMkdir(cfg: Config, start: State, t: int, run: seq<Action>, s: State, c: Creation)
    returns (run': seq<Action>)
    requires Reaches(cfg, start, t, run, s) && t in s.threads && s.threads[t].WritingSchemata?
    requires c != NoDir && c != Bare
    requires s.threads[t].grant.group in s.fs
    ensures var th := s.threads[t];
            var fs := GroupsAfter(s.fs, th.grant.group, [], GrantEntries(th.grant), c);
      Reaches(cfg, start, t, run', Goto(s.(fs := fs), t,
        if c == Created then WritingSpec(th.uid, th.todo, th.grant) else GivingBack(th.uid, th.grant)))
    ensures run <= run'
  {
    var th := s.threads[t];
    if c == Created {
      Onward(cfg, start, t, run, s, true);
      run' := run + [Advance(t, true)];
    } else {
      Onward(cfg, start, t, run, s, false);
      var s1 := Goto(s, t, UndoingDir(th.uid, th.grant));
      assert Step(cfg, s, t, false) == s1;
      Onward(cfg, start, t, run + [Advance(t, false)], s1, c.undone);
      run' := run + [Advance(t, false)] + [Advance(t, c.undone)];
    }
  }

  class Driver {
    const driverName: string
    const nodeName: string
    const wayAlloc: WayAllocator
    const resctrl: Resctrl
    var structuredAllocs: map<string, Grant>

    /** `NewDriver`: an empty claim table. */
    constructor (driverName: string, nodeName: string, wayAlloc: WayAllocator, resctrl: Resctrl)
      ensures this.driverName == driverName && this.nodeName == nodeName
      ensures this.wayAlloc == wayAlloc && this.resctrl == resctrl
      ensures structuredAllocs == map[]
    {
      this.driverName := driverName;
      this.nodeName := nodeName;
      this.wayAlloc := wayAlloc;
      this.resctrl := resctrl;
      structuredAllocs := map[];
    }

    ghost function Cfg(): Config
      reads wayAlloc
    {
      DriverConfig(wayAlloc.totalWays)
    }

    /** The protocol state of this driver with the given calls in flight. */
    ghost function Now(threads: map<int, Thread>): State
      reads this, wayAlloc, resctrl
    {
      State(wayAlloc.Used(), structuredAllocs, Parsed(resctrl.groups), threads)
    }

    /** `prepareClaimStructured`.  `results` is the claim's allocation, absent when the
        claim cannot be fetched or is not allocated; `t` names the call, and `done` counts
        the devices it has recorded. */
    method PrepareClaimStructured(uid: string, results: Option<seq<DeviceResult>>, ghost t: int)
      returns (resp: Option<seq<string>>, ghost run: seq<Action>, ghost done: nat)
      modifies this, wayAlloc`usedMask, resctrl
      ensures results.None? ==> resp.None? && run == [] && done == 0 && Now(map[]) == old(Now(map[]))
      ensures results.Some? ==>
        var reqs := Requests(results.value, driverName, nodeName);
        && Reaches(Cfg(), old(Now(map[])), t, run, Now(map[])) && run[0] == BeginPrepare(t, uid, reqs)
        && done <= |reqs| && (resp.Some? <==> done == |reqs| && reqs != [])
        && (done == |reqs| <==> Finished(Cfg(), old(Now(map[])), t, uid, run))
        && RecordedUpTo(uid, reqs, done)
        && ServedWhereSound(old(Now(map[])), uid, reqs, done, Now(map[]))
      ensures resp.Some? ==> resp.value == WayDevices(results.value, driverName, nodeName)
      ensures GrownSince(old(Now(map[])), done)
    {
      run, done := [], 0;
      if results.None? {
        return None, run, done;
      }
      ghost var start, reqs := Now(map[]), Requests(results.value, driverName, nodeName);
      run := [BeginPrepare(t, uid, reqs)];
      RequestsInRange(results.value, driverName, nodeName);
      DevicesMatchRequests(results.value, driverName, nodeName);
      BeginAlone(Cfg(), start, t, run[0]);
      var ok, devices;
      ok, devices, run, done := PrepareDevices(uid, results.value, t, reqs, start, run);
      if !ok {
        return None, run, done;
      }
      LoopEnds(uid, t, start, reqs, run, done);
      LastStep(Cfg(), start, t, uid, run, Now(map[t := Allocating(uid, [])]), Advance(t, true));
      FinishAlone(Cfg(), start, t, run, Now(map[t := Allocating(uid, [])]), uid);
      run := run + [Advance(t, true)];
      if |devices| == 0 {
        return None, run, done;
      }
      return Some(devices), run, done;
    }

    /** What is served when the call ends, for a claim with a UUID and a driver in a state
        that drivers get into. */
    ghost predicate ServedWhereSound(start: State, uid: string, reqs: seq<Request>, done: nat, s: State)
      reads wayAlloc
    {
      IsUUID(uid) && WellFormed(Cfg(), start) && Isolated(start) ==>
        forall j: nat | Survives(reqs, done, j) :: Served(Cfg(), s, uid, reqs[j])
    }

    /** Nothing was recorded and mask and table are as before, or more ways are used. */
    ghost predicate GrownSince(before: State, done: nat)
      reads this, wayAlloc
    {
      && (done == 0 ==> wayAlloc.Used() == before.used && structuredAllocs == before.table)
      && (done > 0 && WaysFit(wayAlloc.totalWays) ==> wayAlloc.Used() > before.used)
    }

    /** The record is the last request that was served. */
    ghost predicate RecordedUpTo(uid: string, reqs: seq<Request>, done: nat)
      reads this
    {
      0 < done <= |reqs| ==>
        uid in structuredAllocs
        && structuredAllocs[uid].dom == reqs[done - 1].dom && structuredAllocs[uid].ways == reqs[done - 1].ways
    }

    /** The loop over a claim's devices; the first device that fails ends the call. */
    method PrepareDevices(uid: string, rs: seq<DeviceResult>, ghost t: int, ghost reqs: seq<Request>,
                          ghost start: State, ghost run: seq<Action>)
      returns (ok: bool, devices: seq<string>, ghost run': seq<Action>, ghost done: nat)
      requires reqs == Requests(rs, driverName, nodeName) && start == Now(map[]) && run == [BeginPrepare(t, uid, reqs)]
      requires Reaches(Cfg(), start, t, run, Now(map[t := Allocating(uid, reqs)]))
      modifies this, wayAlloc`usedMask, resctrl
      ensures ok ==> done == |reqs| && InLoop(uid, t, start, reqs, run', done)
      ensures ok ==> devices == WayDevices(rs, driverName, nodeName)
      ensures !ok ==> FailedAt(uid, t, start, reqs, run', done)
    {
      devices, run', done := [], run, 0;
      LoopStarts(uid, t, start, rs, reqs, run);
      var i := 0;
      while i < |rs|
        invariant i <= |rs|
        invariant devices == WayDevices(rs[..i], driverName, nodeName) && done == |devices|
        invariant InLoop(uid, t, start, reqs, run', done)
      {
        var more;
        NextRequest(rs, i, done, driverName, nodeName);
        ok, more, run', done := PrepareResult(uid, rs[i], t, reqs, done, start, run');
        if !ok {
          return;
        }
        devices, i := devices + more, i + 1;
      }
      AllAsked(rs, i, driverName, nodeName);
      ok := true;
    }

    lemma LoopStarts(uid: string, t: int, start: State, rs: seq<DeviceResult>, reqs: seq<Request>, run: seq<Action>)
      requires reqs == Requests(rs, driverName, nodeName) && start == Now(map[]) && run == [BeginPrepare(t, uid, reqs)]
      requires Reaches(Cfg(), start, t, run, Now(map[t := Allocating(uid, reqs)]))
      ensures InLoop(uid, t, start, reqs, run, 0)
    {
      RequestsInRange(rs, driverName, nodeName);
      assert reqs[0..] == reqs;
    }

    lemma LoopEnds(uid: string, t: int, start: State, reqs: seq<Request>, run: seq<Action>, done: nat)
      requires InLoop(uid, t, start, reqs, run, done) && done == |reqs|
      ensures Reaches(Cfg(), start, t, run, Now(map[t := Allocating(uid, [])]))
      ensures ServedWhereSound(start, uid, reqs, done, Now(map[]))
    {
      assert reqs[done..] == [];
      ServedSoFarIf(start, t, uid, reqs, run, Now(map[t := Allocating(uid, reqs[done..])]), done);
      ServedAtEndIf(start, t, uid, reqs, Now(map[t := Allocating(uid, reqs[done..])]), Now(map[]), done);
    }

    /** Between two devices of a prepare that began in `start`. */
    ghost predicate InLoop(uid: string, t: int, start: State, reqs: seq<Request>, run: seq<Action>, done: nat)
      reads this, wayAlloc, resctrl
    {
      && done <= |reqs| && (forall r | r in reqs :: IsInt64(r.dom)) && start.threads == map[]
      && Reaches(Cfg(), start, t, run, Now(map[t := Allocating(uid, reqs[done..])]))
      && run[0] == BeginPrepare(t, uid, reqs)
      && RecordedUpTo(uid, reqs, done) && GrownSince(start, done)
    }

    /** The loop body: a result of another driver or pool, or with another kind of name, is
        skipped. */
    method PrepareResult(uid: string, r: DeviceResult, ghost t: int, ghost reqs: seq<Request>, ghost done: nat,
                         ghost start: State, ghost run: seq<Action>)
      returns (ok: bool, more: seq<string>, ghost run': seq<Action>, ghost done': nat)
      requires InLoop(uid, t, start, reqs, run, done)
      requires var req := RequestOf(r, driverName, nodeName); req.Some? ==> done < |reqs| && reqs[done] == req.value
      modifies this, wayAlloc`usedMask, resctrl
      ensures ok ==> InLoop(uid, t, start, reqs, run', done')
      ensures ok ==> if RequestOf(r, driverName, nodeName).Some? then more == [r.device] && done' == done + 1
                     else more == [] && done' == done
      ensures !ok ==> done' == done && FailedAt(uid, t, start, reqs, run', done)
    {
      more, done' := [], done;
      var req := RequestOf(r, driverName, nodeName);
      if req.None? {
        return true, more, run, done';
      }
      ok, run', done' := PrepareNext(uid, req.value, t, reqs, done, start, run);
      more := [r.device];
    }

    /** A prepare that has failed at request `done`. */
    ghost predicate FailedAt(uid: string, t: int, start: State, reqs: seq<Request>, run: seq<Action>, done: nat)
      reads this, wayAlloc, resctrl
    {
      && done < |reqs| && Reaches(Cfg(), start, t, run, Now(map[])) && !Finished(Cfg(), start, t, uid, run)
      && run[0] == BeginPrepare(t, uid, reqs)
      && RecordedUpTo(uid, reqs, done) && GrownSince(start, done)
      && ServedWhereSound(start, uid, reqs, done, Now(map[]))
    }

    /** The next device of a prepare, and what a failure leaves of those before it. */
    method PrepareNext(uid: string, req: Request, ghost t: int, ghost reqs: seq<Request>, ghost done: nat,
                       ghost start: State, ghost run: seq<Action>)
      returns (ok: bool, ghost run': seq<Action>, ghost done': nat)
      requires InLoop(uid, t, start, reqs, run, done) && done < |reqs| && reqs[done] == req
      modifies this, wayAlloc`usedMask, resctrl
      ensures done' == (if ok then done + 1 else done) && (ok ==> InLoop(uid, t, start, reqs, run', done'))
      ensures !ok ==> FailedAt(uid, t, start, reqs, run', done)
    {
      ghost var before := Now(map[t := Allocating(uid, reqs[done..])]);
      FirstOfRest(reqs, done);
      ServedSoFarIf(start, t, uid, reqs, run, before, done);
      done' := done + 1;
      ok, run' := PrepareDevice(uid, req, t, reqs[done + 1..], start, run);
      if !ok {
        done' := done;
        ServedAtEndIf(start, t, uid, reqs, before, Now(map[]), done);
      }
    }

    lemma ServedSoFarIf(start: State, t: int, uid: string, reqs: seq<Request>, run: seq<Action>, s: State, done: nat)
      requires Reaches(Cfg(), start, t, run, s) && run[0] == BeginPrepare(t, uid, reqs) && start.threads == map[]
      requires done <= |reqs| && s.threads == map[t := Allocating(uid, reqs[done..])]
      ensures IsUUID(uid) && WellFormed(Cfg(), start) && Isolated(start) ==>
        ServedButFor(Cfg(), s, uid, reqs, done, -1)
    {
      if IsUUID(uid) && WellFormed(Cfg(), start) && Isolated(start) {
        DriverNamesOk(wayAlloc.totalWays);
        ServedSoFar(Cfg(), start, t, uid, reqs, run, s, done);
      }
    }

    lemma ServedAtEndIf(start: State, t: int, uid: string, reqs: seq<Request>, s: State, s': State, done: nat)
      requires done <= |reqs| && s.threads == map[t := Allocating(uid, reqs[done..])] && s'.threads == map[]
      requires (forall r | r in reqs :: IsInt64(r.dom)) && s'.used == s.used && s'.table == s.table
      requires if done == |reqs| then s'.fs == s.fs else OnlyGroup(s.fs, s'.fs, Cfg().groupOf(reqs[done].dom, uid))
      requires IsUUID(uid) && WellFormed(Cfg(), start) && Isolated(start)
               ==> ServedButFor(Cfg(), s, uid, reqs, done, -1)
      ensures ServedWhereSound(start, uid, reqs, done, s')
    {
      if IsUUID(uid) && WellFormed(Cfg(), start) && Isolated(start) {
        DriverNamesOk(wayAlloc.totalWays);
        ServedAtEnd(Cfg(), s, s', t, uid, reqs, done);
      }
    }

    /** One device of a prepare: allocate, create the group, write the CDI file, record;
        a failure gives the ways back and ends the call. */
    method PrepareDevice(uid: string, req: Request, ghost t: int, ghost todo: seq<Request>, ghost start: State,
                         ghost run: seq<Action>)
      returns (ok: bool, ghost run': seq<Action>)
      requires IsInt64(req.dom)
      requires Reaches(Cfg(), start, t, run, Now(map[t := Allocating(uid, [req] + todo)]))
      modifies this, wayAlloc`usedMask, resctrl
      ensures Reaches(Cfg(), start, t, run', Now(if ok then map[t := Allocating(uid, todo)] else map[]))
      ensures run <= run'
      ensures ok ==>
        && uid in structuredAllocs && structuredAllocs == old(structuredAllocs)[uid := structuredAllocs[uid]]
        && structuredAllocs[uid].dom == req.dom && structuredAllocs[uid].ways == req.ways
        && wayAlloc.Used() == old(wayAlloc.Used()) + GrantSlots(structuredAllocs[uid])
        && (WaysFit(wayAlloc.totalWays) ==> wayAlloc.Used() > old(wayAlloc.Used()))
      ensures !ok ==> wayAlloc.Used() == old(wayAlloc.Used()) && structuredAllocs == old(structuredAllocs)
      ensures !ok ==> !Finished(Cfg(), start, t, uid, run')
      ensures OnlyGroup(old(Parsed(resctrl.groups)), Parsed(resctrl.groups), Cfg().groupOf(req.dom, uid))
    {
      var cacheID, ways := req.dom, req.ways;
      ghost var before := Now(map[t := Allocating(uid, [req] + todo)]);
      AllocateAlone(Cfg(), start, t, run, before, uid, req, todo);
      run' := run + [Advance(t, true)];
      var cbm := wayAlloc.Allocate(cacheID, ways);
      if cbm.Err? {
        NotFinished(Cfg(), start, t, uid, run, before, Advance(t, true), Allocating(uid, [req] + todo));
        return false, run';
      }
      GrantedWereFree(wayAlloc.totalWays, old(wayAlloc.Used()), cacheID, ways);
      if WaysFit(wayAlloc.totalWays) { GrantIsNotEmpty(wayAlloc.totalWays, old(wayAlloc.Used()), cacheID, ways); }
      var groupName := NameGroup(cacheID, uid);
      ok, run' := PrepareReserved(uid, Grant(cacheID, ways, cbm.value, groupName), t, todo, start, run');
    }

    /** `fmt.Sprintf("dra-c%d-%s", cacheID, sanitizeUID(claim.Uid))`. */
    method NameGroup(cacheID: int, uid: string) returns (name: string)
      ensures name == Cfg().groupOf(cacheID, uid)
    {
      name := GroupName(cacheID, uid);
    }

    /** The rest of a prepare, once the ways are reserved. */
    method PrepareReserved(uid: string, grant: Grant, ghost t: int, ghost todo: seq<Request>, ghost start: State,
                           ghost run: seq<Action>)
      returns (ok: bool, ghost run': seq<Action>)
      requires IsInt64(grant.dom)
      requires Reaches(Cfg(), start, t, run, Now(map[t := MakingDir(uid, todo, grant)]))
      modifies this, wayAlloc`usedMask, resctrl
      ensures Reaches(Cfg(), start, t, run', Now(if ok then map[t := Allocating(uid, todo)] else map[]))
      ensures run <= run'
      ensures ok ==>
        wayAlloc.Used() == old(wayAlloc.Used()) && structuredAllocs == old(structuredAllocs)[uid := grant]
      ensures !ok ==>
        wayAlloc.Used() == old(wayAlloc.Used()) - GrantSlots(grant) && structuredAllocs == old(structuredAllocs)
      ensures !ok ==> !Finished(Cfg(), start, t, uid, run')
      ensures OnlyGroup(old(Parsed(resctrl.groups)), Parsed(resctrl.groups), grant.group)
    {
      var created;
      created, run' := CreateGroup(uid, grant, t, todo, start, run);
      if !created {
        run' := GiveBack(uid, grant, t, start, run');
        return false, run';
      }
      var written := WriteClaimCDISpec();
      ghost var th := WritingSpec(uid, todo, grant);
      SpecAlone(Cfg(), start, t, run', Now(map[t := th]), th, written);
      run' := run' + [Advance(t, written)];
      if !written {
        run' := RemoveAndGiveBack(uid, grant, t, start, run');
        return false, run';
      }
      RecordAlone(Cfg(), start, t, run', Now(map[t := Recording(uid, todo, grant)]), Recording(uid, todo, grant));
      run' := run' + [Advance(t, true)];
      structuredAllocs := structuredAllocs[uid := grant];
      return true, run';
    }

    /** The group of a grant, with its schemata text. */
    method CreateGroup(uid: string, grant: Grant, ghost t: int, ghost todo: seq<Request>, ghost start: State,
                       ghost run: seq<Action>)
      returns (ok: bool, ghost run': seq<Action>)
      requires IsInt64(grant.dom)
      requires Reaches(Cfg(), start, t, run, Now(map[t := MakingDir(uid, todo, grant)]))
      modifies resctrl
      ensures Reaches(Cfg(), start, t, run',
        Now(map[t := if ok then WritingSpec(uid, todo, grant) else GivingBack(uid, grant)]))
      ensures run <= run'
      ensures OnlyGroup(old(Parsed(resctrl.groups)), Parsed(resctrl.groups), grant.group)
    {
      ghost var s := Now(map[t := MakingDir(uid, todo, grant)]);
      var schemata := BuildSchemata(grant.dom, grant.mask);
      var created, c := resctrl.CreateGroup(grant.group, schemata);
      OnlyGroupAfter(s.fs, grant.group, [], GrantEntries(grant), c);
      run' := CreateAlone(Cfg(), start, t, run, s, MakingDir(uid, todo, grant), c, Parsed(resctrl.groups));
      ok := created;
    }

    /** `writeClaimCDISpec` changes nothing the model keeps; it may fail. */
    method WriteClaimCDISpec() returns (ok: bool)
    {
      ok := *;
    }

    /** The rollback of a prepare whose CDI file could not be written. */
    method RemoveAndGiveBack(uid: string, grant: Grant, ghost t: int, ghost start: State, ghost run: seq<Action>)
      returns (ghost run': seq<Action>)
      requires Reaches(Cfg(), start, t, run, Now(map[t := UndoingGroup(uid, grant)]))
      modifies wayAlloc`usedMask, resctrl
      ensures Reaches(Cfg(), start, t, run', Now(map[])) && run <= run'
      ensures !Finished(Cfg(), start, t, uid, run')
      ensures wayAlloc.Used() == old(wayAlloc.Used()) - GrantSlots(grant)
      ensures OnlyGroup(old(Parsed(resctrl.groups)), Parsed(resctrl.groups), grant.group)
    {
      ghost var s := Now(map[t := UndoingGroup(uid, grant)]);
      ParsedRemove(resctrl.groups, grant.group);
      var removed := resctrl.Remove(grant.group);
      RemoveAlone(Cfg(), start, t, run, s, UndoingGroup(uid, grant), removed);
      run' := GiveBack(uid, grant, t, start, run + [Advance(t, removed)]);
    }

    /** `wayAlloc.Release` as the last step of a failed prepare. */
    method GiveBack(uid: string, grant: Grant, ghost t: int, ghost start: State, ghost run: seq<Action>)
      returns (ghost run': seq<Action>)
      requires Reaches(Cfg(), start, t, run, Now(map[t := GivingBack(uid, grant)]))
      modifies wayAlloc`usedMask
      ensures Reaches(Cfg(), start, t, run', Now(map[])) && run <= run'
      ensures !Finished(Cfg(), start, t, uid, run')
      ensures wayAlloc.Used() == old(wayAlloc.Used()) - GrantSlots(grant)
    {
      ghost var th := GivingBack(uid, grant);
      ReleaseAlone(Cfg(), start, t, run, Now(map[t := th]), th);
      NotFinished(Cfg(), start, t, uid, run, Now(map[t := th]), Advance(t, true), th);
      run' := run + [Advance(t, true)];
      wayAlloc.Release(grant.dom, grant.mask);
    }

    /** `unprepareClaimStructured`: a claim without a record is left alone; otherwise
        the group is removed, or not, and the ways are given back either way. */
    method UnprepareClaimStructured(uid: string, ghost t: int) returns (ghost run: seq<Action>)
      modifies this, wayAlloc`usedMask, resctrl
      ensures Reaches(Cfg(), old(Now(map[])), t, run, Now(map[])) && run[0] == BeginUnprepare(t, uid)
      ensures uid !in structuredAllocs
      ensures uid !in old(structuredAllocs) ==> Now(map[]) == old(Now(map[]))
    {
      ghost var start := Now(map[]);
      run := [BeginUnprepare(t, uid)];
      BeginAlone(Cfg(), start, t, run[0]);
      ForgetAlone(Cfg(), start, t, run, Now(map[t := Forgetting(uid)]), uid);
      run := run + [Advance(t, true)];
      if uid !in structuredAllocs {
        return;
      }
      var alloc := structuredAllocs[uid];
      structuredAllocs := structuredAllocs - {uid};
      ghost var s := Now(map[t := RemovingGroup(uid, alloc)]);
      ParsedRemove(resctrl.groups, alloc.group);
      var removed := resctrl.Remove(alloc.group);
      RemoveAlone(Cfg(), start, t, run, s, RemovingGroup(uid, alloc), removed);
      run := run + [Advance(t, removed)];
      ReleaseAlone(Cfg(), start, t, run, Now(map[t := Freeing(uid, alloc)]), Freeing(uid, alloc));
      run := run + [Advance(t, true)];
      wayAlloc.Release(alloc.dom, alloc.mask);
    }

    /** `RecoverStructuredAllocs` on a fresh driver: afterwards the driver is in the
        state the protocol starts from after a crash. */
    method RecoverStructuredAllocs(entries: Option<seq<DirEntry>>, ghost unreadable: set<string>)
      requires wayAlloc.Used() == {} && structuredAllocs == map[]
      requires ListsGroups(entries, resctrl.groups, unreadable)
      modifies wayAlloc`usedMask
      ensures Now(map[]) == Boot(Parsed(resctrl.groups), unreadable)
    {
      var ok := wayAlloc.RebuildFromResctrl(entries, GROUP_PREFIX);
      RebuiltFromListing(entries, resctrl.groups, unreadable);
    }
  }

  /** The listing shows exactly the groups with their text, but for the unreadable
      ones; a listing that fails shows nothing. */
  ghost predicate ListsGroups(entries: Option<seq<DirEntry>>, groups: map<string, string>, unreadable: set<string>) {
    match entries
    case None => forall n | n in groups :: n in unreadable
    case Some(es) =>
      && (forall e | e in es && e.isDir && Ours(e.name) && e.schemata.Some? ::
            e.name in groups && e.name !in unreadable && groups[e.name] == e.schemata.value)
      && (forall n | n in groups && Ours(n) && n !in unreadable :: DirEntry(n, true, Some(groups[n])) in es)
  }

  lemma RebuiltFromListing(entries: Option<seq<DirEntry>>, groups: map<string, string>, unreadable: set<string>)
    requires ListsGroups(entries, groups, unreadable)
    ensures Rebuilt(Parsed(groups), unreadable)
         == if entries.Some? then ScanSlots(entries.value, GROUP_PREFIX) else {}
  {
    if entries.Some? {
      forall s ensures s in Rebuilt(Parsed(groups), unreadable) <==> s in ScanSlots(entries.value, GROUP_PREFIX) {
        ListedSlot(entries.value, groups, unreadable, s);
      }
    }
  }

  lemma ListedSlot(es: seq<DirEntry>, groups: map<string, string>, unreadable: set<string>, s: Slot)
    requires ListsGroups(Some(es), groups, unreadable)
    ensures s in Rebuilt(Parsed(groups), unreadable) <==> s in ScanSlots(es, GROUP_PREFIX)
  {
    var fs := Parsed(groups);
    ScanSlotsMember(es, GROUP_PREFIX, s);
    forall n | n in fs && n !in unreadable && s in LiveSlots(fs, n)
      ensures exists e | e in es :: s in Contribution(e, GROUP_PREFIX)
    {
      assert s in Contribution(DirEntry(n, true, Some(groups[n])), GROUP_PREFIX);
    }
    forall e | e in es && s in Contribution(e, GROUP_PREFIX) ensures s in Rebuilt(fs, unreadable) {
      assert s in LiveSlots(fs, e.name);
    }
  }
}
