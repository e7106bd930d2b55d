/** Structured mode as a protocol of small steps.

  Every prepare or unprepare call is a thread that advances one lock-protected
  or file-system operation at a time; steps of different threads interleave
  freely, the environment decides which file operations succeed, and a crash may
  strike between any two steps.
 */
module Protocol {
  import opened Results
  import opened Slots
  import opened GoText
  import opened Schemata
  import opened Names

  /** What a driver process is started with: the ways of each domain, and how it
      names the group of a claim in a domain. */
  datatype Config = Config(totals: map<int, int>, groupOf: (int, string) -> string)

  /** The naming of the driver. */
  function DriverConfig(totals: map<int, int>): Config {
    Config(totals, GroupName)
  }

  /** `structuredAlloc`: ways reserved for a claim, and the group that gets them. */
  datatype Grant = Grant(dom: int, ways: int, mask: bv64, group: string)

  ghost function GrantSlots(g: Grant): set<Slot> {
    MaskSlots(g.dom, g.mask)
  }

  /** What a call is about to do. */
  datatype Thread =
    // prepareClaimStructured
    | Allocating(uid: string, todo: seq<Request>)
    | MakingDir(uid: string, todo: seq<Request>, grant: Grant)
    | WritingSchemata(uid: string, todo: seq<Request>, grant: Grant)
    | UndoingDir(uid: string, grant: Grant)
    | WritingSpec(uid: string, todo: seq<Request>, grant: Grant)
    | UndoingGroup(uid: string, grant: Grant)
    | GivingBack(uid: string, grant: Grant)
    | Recording(uid: string, todo: seq<Request>, grant: Grant)
    // unprepareClaimStructured
    | Forgetting(uid: string)
    | RemovingGroup(uid: string, grant: Grant)
    | Freeing(uid: string, grant: Grant)

  /** The allocator's used ways, `structuredAllocs`, the resctrl groups with the L3
      entries of their schemata, and the calls in flight. */
  datatype State = State(
    used: set<Slot>,
    table: map<string, Grant>,
    fs: map<string, seq<Entry>>,
    threads: map<int, Thread>)

  datatype Action =
    | BeginPrepare(t: int, uid: string, reqs: seq<Request>)
    | BeginUnprepare(t: int, uid: string)
    | Advance(t: int, ok: bool)
    | Crash(unreadable: set<string>)

  /** What the schemata file of a prepare says; `Schemata.StructuredRoundTrip` is the
      step from this to the text. */
  function GrantEntries(g: Grant): seq<Entry> {
    [Entry(g.dom, g.mask)]
  }

  /** Groups of this driver, by their name. */
  predicate Ours(group: string) {
    GROUP_PREFIX <= group
  }

  /** The ways a live group of this driver holds. */
  ghost function LiveSlots(fs: map<string, seq<Entry>>, group: string): set<Slot> {
    if group in fs && Ours(group) then EntrySlots(fs[group]) else {}
  }

  /** What a restarted driver marks as used: all groups it can read. */
  ghost function Rebuilt(fs: map<string, seq<Entry>>, unreadable: set<string>): set<Slot> {
    set n, s | n in fs && n !in unreadable && s in LiveSlots(fs, n) :: s
  }

  /** A fresh driver process on a node with these groups. */
  ghost function Boot(fs: map<string, seq<Entry>>, unreadable: set<string>): State {
    State(Rebuilt(fs, unreadable), map[], fs, map[])
  }

  predicate RemovesDir(th: Thread) {
    th.UndoingDir? || th.UndoingGroup? || th.RemovingGroup?
  }

  /** Actions that can happen. A schemata file can only be written, and a group only
      be removed, while its directory exists. */
  ghost predicate Enabled(s: State, a: Action) {
    match a
    case BeginPrepare(t, uid, reqs) => t !in s.threads && forall r | r in reqs :: IsInt64(r.dom)
    case BeginUnprepare(t, uid) => t !in s.threads
    case Advance(t, ok) =>
      t in s.threads &&
      (ok && (s.threads[t].WritingSchemata? || RemovesDir(s.threads[t])) ==> s.threads[t].grant.group in s.fs)
    case Crash(_) => true
  }

  ghost function Goto(s: State, t: int, th: Thread): State {
    s.(threads := s.threads[t := th])
  }

  /** The call returns. */
  ghost function Return(s: State, t: int): State {
    s.(threads := s.threads - {t})
  }

  /** `wayAlloc.Allocate` for the next device of the claim; an error, or no device
      left, ends the call. */
  ghost function AllocateStep(cfg: Config, s: State, t: int, uid: string, todo: seq<Request>): State {
    if todo == [] then Return(s, t) else
      match AllocateResult(cfg.totals, s.used, todo[0].dom, todo[0].ways)
      case Err(_) => Return(s, t)
      case Ok(mask) =>
        var g := Grant(todo[0].dom, todo[0].ways, mask, cfg.groupOf(todo[0].dom, uid));
        Goto(s.(used := s.used + GrantSlots(g)), t, MakingDir(uid, todo[1..], g))
  }

  /** `wayAlloc.Release`, the last thing a call does. */
  ghost function ReleaseStep(s: State, t: int, g: Grant): State {
    Return(s.(used := s.used - GrantSlots(g)), t)
  }

  /** `structuredAllocs[uid] = alloc`. */
  ghost function RecordStep(s: State, t: int, uid: string, todo: seq<Request>, g: Grant): State {
    Goto(s.(table := s.table[uid := g]), t, Allocating(uid, todo))
  }

  /** Looking up and deleting `structuredAllocs[uid]`. */
  ghost function ForgetStep(s: State, t: int, uid: string): State {
    if uid in s.table then Goto(s.(table := s.table - {uid}), t, RemovingGroup(uid, s.table[uid]))
    else Return(s, t)
  }

  predicate OnFiles(th: Thread) {
    th.MakingDir? || th.WritingSchemata? || th.WritingSpec? || RemovesDir(th)
  }

  /** The groups after a file operation of a call. */
  function FilesAfter(fs: map<string, seq<Entry>>, th: Thread, ok: bool): map<string, seq<Entry>>
    requires OnFiles(th)
  {
    if !ok || th.WritingSpec? then fs
    else if th.MakingDir? then (if th.grant.group in fs then fs else fs[th.grant.group := []])
    else if th.WritingSchemata? then fs[th.grant.group := GrantEntries(th.grant)]
    else fs - {th.grant.group}
  }

  /** Where the call goes after a file operation: failures of a prepare lead to its
      rollback, failures of a removal are ignored. */
  function ThreadAfter(th: Thread, ok: bool): Thread
    requires OnFiles(th)
  {
    match th
    case MakingDir(uid, todo, g) => if ok then WritingSchemata(uid, todo, g) else GivingBack(uid, g)
    case WritingSchemata(uid, todo, g) => if ok then WritingSpec(uid, todo, g) else UndoingDir(uid, g)
    case UndoingDir(uid, g) => GivingBack(uid, g)
    case WritingSpec(uid, todo, g) => if ok then Recording(uid, todo, g) else UndoingGroup(uid, g)
    case UndoingGroup(uid, g) => GivingBack(uid, g)
    case RemovingGroup(uid, g) => Freeing(uid, g)
  }

  ghost function FileStep(s: State, t: int, th: Thread, ok: bool): State
    requires OnFiles(th)
  {
    Goto(s.(fs := FilesAfter(s.fs, th, ok)), t, ThreadAfter(th, ok))
  }

  /** One step of call t; `ok` says whether its file operation succeeds. */
  ghost function Step(cfg: Config, s: State, t: int, ok: bool): State
    requires t in s.threads
  {
    var th := s.threads[t];
    if th.Allocating? then AllocateStep(cfg, s, t, th.uid, th.todo)
    else if th.Recording? then RecordStep(s, t, th.uid, th.todo, th.grant)
    else if th.Forgetting? then ForgetStep(s, t, th.uid)
    else if OnFiles(th) then FileStep(s, t, th, ok)
    else ReleaseStep(s, t, th.grant)
  }

  ghost function Next(cfg: Config, s: State, a: Action): State
    requires Enabled(s, a)
  {
    match a
    case BeginPrepare(t, uid, reqs) => Goto(s, t, Allocating(uid, reqs))
    case BeginUnprepare(t, uid) => Goto(s, t, Forgetting(uid))
    case Advance(t, ok) => Step(cfg, s, t, ok)
    case Crash(unreadable) => Boot(s.fs, unreadable)
  }

  /** The sequence of actions can happen from s. */
  ghost predicate Possible(cfg: Config, s: State, run: seq<Action>)
    decreases |run|, 0
  {
    |run| != 0 ==>
      Possible(cfg, s, run[..|run| - 1]) &&
      Enabled(After(cfg, s, run[..|run| - 1]), run[|run| - 1])
  }

  /** The state after the run. */
  ghost function After(cfg: Config, s: State, run: seq<Action>): State
    requires Possible(cfg, s, run)
    decreases |run|, 1
  {
    if |run| == 0 then s
    else Next(cfg, After(cfg, s, run[..|run| - 1]), run[|run| - 1])
  }

  /** One more action. */
  lemma Extend(cfg: Config, s: State, run: seq<Action>, a: Action)
    requires Possible(cfg, s, run) && Enabled(After(cfg, s, run), a)
    ensures Possible(cfg, s, run + [a])
    ensures After(cfg, s, run + [a]) == Next(cfg, After(cfg, s, run), a)
  {
    assert (run + [a])[..|run + [a]| - 1] == run;
  }

  lemma OneAction(cfg: Config, s: State, a: Action)
    requires Enabled(s, a)
    ensures Possible(cfg, s, [a]) && After(cfg, s, [a]) == Next(cfg, s, a)
  {
    Extend(cfg, s, [], a);
    assert [] + [a] == [a];
  }

  // ----- who holds what

  datatype Holder = InTable(uid: string) | InThread(t: int)

  function ThreadGrant(th: Thread): Option<Grant> {
    if th.Allocating? || th.Forgetting? then None else Some(th.grant)
  }

  /** The grant a table entry or a call in flight holds. */
  ghost function Holding(s: State, h: Holder): Option<Grant> {
    match h
    case InTable(uid) => if uid in s.table then Some(s.table[uid]) else None
    case InThread(t) => if t in s.threads then ThreadGrant(s.threads[t]) else None
  }

  ghost function Held(s: State, h: Holder): set<Slot> {
    if Holding(s, h).Some? then GrantSlots(Holding(s, h).value) else {}
  }

  /** No two holders share a way, and the allocator knows every held way. */
  ghost predicate Isolated(s: State) {
    && (forall h :: Held(s, h) <= s.used)
    && (forall h, k :: h != k ==> Held(s, h) !! Held(s, k))
  }
}
