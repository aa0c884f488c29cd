/**
  Entries of the shared cache (osbuild/util/fscache.py: `_atomic_dir`, `store`,
  `load`, `_remove_lru`, `_rm_r_object`) as a transition system: any number of
  processes, one step per system call that touches shared state, and a process may
  die between any two steps.

  Every `store` call makes one directory with one lock file, so one number names
  the call's uuid, its directory and the inode of its lock file.  The update of
  `cache.size` is one step here; module AtomicSafety shows that it behaves like one.
 */
module CacheEntries {
  import opened Wrappers
  import AtomicFile

  type Pid = nat
  type Id = nat

  // A name below `objects/`: the anonymous name of a store, or a caller's name.
  datatype Name = Uuid(id: Id) | Named(key: string)

  datatype Data = NoData | Partial | Complete(val: int, size: nat)

  // The files inside an entry directory; `info` is the size in `object.info`.
  datatype Dir = Dir(lock: bool, info: Option<nat>, data: Data)

  const EMPTY := Dir(false, None, NoData)

  // An element of the list `_last_used_objs` returns.
  datatype Candidate = Candidate(name: Name, stamp: nat)

  datatype Commit = Commit(key: string, val: int, size: nat)

  datatype Stage =
    // store
    | SMkdir | SLink | SMkdata | SFill | SFilled | SRetry | SAccounted | SInfo
    | SCollided | SDeaccount | SUnlock
    // _remove_lru, called by store
    | LList | LOpen | LLock | LStat | LStale | LCompare | LMeasure | LSubtract | LRelease | LAbort
    // _rm_r_object, called by either
    | RInfo | RScan | RData | RLock | RDir
    // load
    | DOpen | DLock | DStat | DStale | DTouch | DHold
    | Dead

  // The store a process runs, and where its walk over candidates (or its load)
  // stands.  `evict` tells an eviction from the clean-up of the own entry; `gone`
  // is the size whose `object.info` the removal deleted.
  datatype Own = Own(key: string, d: Id, val: int, n: nat)
  datatype Walk = Walk(
    name: Name, e: Id, stamp: nat, rest: seq<Candidate>, freed: nat, whole: nat, gone: nat, evict: bool)

  datatype Proc = Proc(st: Stage, own: Own, w: Walk)

  // `commits`, `broken`, `lost` and `evicted` record what happened and are never
  // read by a step: who committed which data, which entries lost their remover
  // half-way, how much was accounted by calls cut short, whether an eviction ran.
  datatype Cache = Cache(
    names: map<Name, Id>,
    dirs: map<Id, Dir>,
    writer: map<Id, Pid>,
    readers: set<(Id, Pid)>,
    used: map<Id, nat>,
    size: int,
    limit: int,
    procs: map<Pid, Proc>,
    free: Id,
    commits: map<Id, Commit>,
    broken: set<Id>,
    lost: nat,
    evicted: bool)

  // What is not determined by the code: which call starts, what the caller writes,
  // what the racy listing returns, how much the files beside the data weigh.
  datatype Event =
    | Store(key: string)
    | Load(key: string)
    | Filled(val: int, size: nat)
    | Raise
    | Listing(list: seq<Candidate>)
    | Measured(overhead: nat)
    | Clock(now: nat)
    | Run
    | Crash

  ghost predicate Alive(s: Cache, p: Pid) {
    p in s.procs && !s.procs[p].st.Dead?
  }

  // What one system call does to the shared state.
  datatype DirOp =
    | NoDir
    | Make                       // a new directory number, empty
    | Write(x: Id, dir: Dir)     // create or delete files in a directory
    | Touch(x: Id, now: nat)     // access time of the lock file
  datatype LockOp = NoLock | Take(x: Id) | Drop(x: Id) | TakeRead(x: Id) | DropRead(x: Id) | DropAll
  datatype NameOp =
    | NoName
    | Bind(x: Id)                                 // mkdir of the anonymous name
    | Move(x: Id, key: string, commit: Commit)    // rename to the caller's name
    | Unbind(name: Name)                          // rmdir

  // The effect of a step: the process afterwards (none when the call returned),
  // one operation each on directories, locks and names, and the accounting.
  datatype Effect = Effect(
    proc: Option<Proc>, dir: DirOp, lock: LockOp, name: NameOp, size: int, lost: nat, evicted: bool, broke: set<Id>)

  ghost function Quiet(s: Cache, pr: Proc): Effect {
    Effect(Some(pr), NoDir, NoLock, NoName, s.size, s.lost, s.evicted, {})
  }

  ghost function ApplyDirs(s: Cache, op: DirOp): map<Id, Dir> {
    match op
    case Make => s.dirs[s.free := EMPTY]
    case Write(x, dir) => s.dirs[x := dir]
    case _ => s.dirs
  }

  ghost function ApplyWriter(s: Cache, p: Pid, op: LockOp): map<Id, Pid> {
    match op
    case Take(x) => s.writer[x := p]
    case Drop(x) => map y | y in s.writer && y != x :: s.writer[y]
    case DropAll => map y | y in s.writer && s.writer[y] != p :: s.writer[y]
    case _ => s.writer
  }

  ghost function ApplyReaders(s: Cache, p: Pid, op: LockOp): set<(Id, Pid)> {
    match op
    case TakeRead(x) => s.readers + {(x, p)}
    case DropRead(x) => s.readers - {(x, p)}
    case DropAll => set r | r in s.readers && r.1 != p
    case _ => s.readers
  }

  ghost function ApplyNames(names: map<Name, Id>, op: NameOp): map<Name, Id> {
    match op
    case NoName => names
    case Bind(x) => names[Uuid(x) := x]
    case Move(x, key, _) => DropName(names, Uuid(x))[Named(key) := x]
    case Unbind(name) => DropName(names, name)
  }

  ghost function Apply(s: Cache, p: Pid, e: Effect): Cache {
    Cache(
      ApplyNames(s.names, e.name),
      ApplyDirs(s, e.dir),
      ApplyWriter(s, p, e.lock),
      ApplyReaders(s, p, e.lock),
      if e.dir.Make? then s.used[s.free := 0] else if e.dir.Touch? then s.used[e.dir.x := e.dir.now] else s.used,
      e.size,
      s.limit,
      if e.proc.Some? then s.procs[p := e.proc.value] else (map q | q in s.procs && q != p :: s.procs[q]),
      if e.dir.Make? then s.free + 1 else s.free,
      if e.name.Move? then s.commits[e.name.x := e.name.commit] else s.commits,
      s.broken + e.broke,
      e.lost,
      e.evicted)
  }

  ghost function DropName(names: map<Name, Id>, name: Name): map<Name, Id> {
    map m | m in names && m != name :: names[m]
  }

  ghost predicate Sorted(list: seq<Candidate>) {
    forall i, j :: 0 <= i < j < |list| ==> list[i].stamp <= list[j].stamp
  }

  // Whether the lock file can be opened through `name`.
  ghost predicate Reachable(s: Cache, name: Name) {
    name in s.names && s.names[name] in s.dirs && s.dirs[s.names[name]].lock
  }

  // ---------------------------------------------------------------- transitions

  ghost predicate Enabled(s: Cache, p: Pid, ev: Event) {
    if ev.Store? || ev.Load? then p !in s.procs
    else Alive(s, p) && EventEnabled(s, s.procs[p], ev)
  }

  ghost predicate EventEnabled(s: Cache, pr: Proc, ev: Event) {
    match ev
    case Crash => true
    case Filled(_, _) => pr.st.SFill? && pr.own.d in s.dirs
    case Raise => pr.st.SFill?
    case Listing(list) => pr.st.LList? && Sorted(list)
    case Measured(_) => pr.st.LMeasure?
    case Clock(_) => pr.st.DTouch?
    case _ => !pr.st.SFill? && !pr.st.LList? && !pr.st.LMeasure? && !pr.st.DTouch? && RunEnabled(s, pr)
  }

  // `used` and `dirs` hold every number ever handed out, so these are never false.
  ghost predicate RunEnabled(s: Cache, pr: Proc) {
    && (pr.st.SLink? || pr.st.SMkdata? || pr.st.SAccounted? || pr.st.SCollided? ==> pr.own.d in s.dirs)
    && (pr.st.LCompare? ==> pr.w.name in s.names && s.names[pr.w.name] in s.used)
    && (pr.st.RInfo? || pr.st.RScan? || pr.st.RData? || pr.st.RLock? || pr.st.RDir? ==>
          pr.w.name in s.names ==> s.names[pr.w.name] in s.dirs)
    && (pr.st.SInfo? && Named(pr.own.key) in s.names ==> s.names[Named(pr.own.key)] in s.dirs)
  }

  ghost function Idle(): Proc {
    Proc(SMkdir, Own("", 0, 0, 0), Walk(Uuid(0), 0, 0, [], 0, 0, 0, false))
  }

  // Leave by removing the own anonymous entry.
  ghost function Cleanup(pr: Proc): Proc {
    pr.(st := RInfo, w := pr.w.(evict := false, name := Uuid(pr.own.d), e := pr.own.d, gone := 0))
  }

  ghost function NextCandidate(pr: Proc, rest: seq<Candidate>): Proc {
    if rest == [] then pr.(st := SRetry)
    else pr.(st := LOpen, w := pr.w.(evict := false, name := rest[0].name, stamp := rest[0].stamp, rest := rest[1..]))
  }

  ghost function Next(s: Cache, p: Pid, ev: Event): Cache
    requires Enabled(s, p, ev)
  {
    Apply(s, p, if p in s.procs then EffectOf(s, s.procs[p], ev) else Start(s, ev))
  }

  ghost function Start(s: Cache, ev: Event): Effect
    requires ev.Store? || ev.Load?
  {
    match ev
    case Store(key) =>
      // the lock file is created and locked before the directory exists
      Quiet(s, Idle().(st := SMkdir, own := Own(key, s.free, 0, 0))).(dir := Make, lock := Take(s.free))
    case Load(key) =>
      Quiet(s, Idle().(st := DOpen, own := Own(key, 0, 0, 0), w := Walk(Named(key), 0, 0, [], 0, 0, 0, false)))
  }

  ghost function EffectOf(s: Cache, pr: Proc, ev: Event): Effect
    requires EventEnabled(s, pr, ev) && !ev.Store? && !ev.Load?
  {
    match ev
    case Crash =>
      Quiet(s, pr.(st := Stage.Dead)).(lock := DropAll, lost := s.lost + InFlight(pr),
        broke := if pr.st.RData? || pr.st.RLock? then {pr.w.e} else {})
    case Filled(val, size) =>
      Quiet(s, pr.(st := SFilled, own := pr.own.(val := val, n := size)))
        .(dir := Write(pr.own.d, s.dirs[pr.own.d].(data := Complete(val, size))))
    case Raise => Quiet(s, Cleanup(pr))
    case Listing(list) => Quiet(s, NextCandidate(pr.(w := pr.w.(freed := 0)), list))
    case Measured(overhead) =>
      var data := if pr.w.e in s.dirs && s.dirs[pr.w.e].data.Complete? then s.dirs[pr.w.e].data.size else 0;
      Quiet(s, pr.(st := RInfo, w := pr.w.(whole := data + overhead, gone := 0, evict := true)))
    case Clock(now) => Quiet(s, pr.(st := DHold)).(dir := Touch(pr.w.e, now))
    case Run =>
      if IsRemoveStage(pr.st) then RemoveStep(s, pr)
      else if IsLoadStage(pr.st) then LoadStep(s, pr)
      else if IsEvictStage(pr.st) then EvictStep(s, pr)
      else StoreStep(s, pr)
  }

  ghost predicate IsRemoveStage(st: Stage) {
    st.RInfo? || st.RScan? || st.RData? || st.RLock? || st.RDir?
  }

  ghost predicate IsLoadStage(st: Stage) {
    st.DOpen? || st.DLock? || st.DStat? || st.DStale? || st.DTouch? || st.DHold?
  }

  ghost predicate IsEvictStage(st: Stage) {
    || st.LList? || st.LOpen? || st.LLock? || st.LStat? || st.LStale? || st.LCompare?
    || st.LMeasure? || st.LSubtract? || st.LRelease? || st.LAbort?
  }

  ghost function StoreStep(s: Cache, pr: Proc): Effect
    requires RunEnabled(s, pr)
  {
    match pr.st
    case SMkdir => Quiet(s, pr.(st := SLink)).(name := Bind(pr.own.d))
    case SLink => Quiet(s, pr.(st := SMkdata)).(dir := Write(pr.own.d, s.dirs[pr.own.d].(lock := true)))
    case SMkdata => Quiet(s, pr.(st := SFill)).(dir := Write(pr.own.d, s.dirs[pr.own.d].(data := Partial)))
    case SFilled =>
      if s.limit > -1 && pr.own.n > s.limit then Quiet(s, Cleanup(pr))
      else (match AtomicFile.Resized(s.size, pr.own.n, s.limit)
            case Some(size) => Quiet(s, pr.(st := SAccounted)).(size := size)
            case None => Quiet(s, pr.(st := LList)))
    case SRetry =>
      (match AtomicFile.Resized(s.size, pr.own.n, s.limit)
       case Some(size) => Quiet(s, pr.(st := SAccounted)).(size := size)
       case None => Quiet(s, Cleanup(pr)))
    case SAccounted => Quiet(s, pr.(st := SInfo)).(dir := Write(pr.own.d, s.dirs[pr.own.d].(info := Some(pr.own.n))))
    case SInfo =>
      // a directory can be renamed over a missing name or an empty directory only
      if Named(pr.own.key) !in s.names || s.dirs[s.names[Named(pr.own.key)]] == EMPTY
      then Quiet(s, pr.(st := SUnlock)).(name := Move(pr.own.d, pr.own.key, Commit(pr.own.key, pr.own.val, pr.own.n)))
      else Quiet(s, pr.(st := SCollided))
    case SCollided => Quiet(s, pr.(st := SDeaccount)).(dir := Write(pr.own.d, s.dirs[pr.own.d].(info := None)))
    case SDeaccount =>
      (match AtomicFile.Resized(s.size, -(pr.own.n as int), s.limit)
       case Some(size) => Quiet(s, pr.(st := SUnlock)).(size := size)
       case None => Quiet(s, pr.(st := SUnlock)))
    case SUnlock => Quiet(s, pr).(proc := None, lock := Drop(pr.own.d))
    case _ => Quiet(s, pr)
  }

  ghost function EvictStep(s: Cache, pr: Proc): Effect
    requires RunEnabled(s, pr)
  {
    match pr.st
    case LOpen =>
      // a candidate that is gone raises FileNotFoundError, which nothing catches
      if Reachable(s, pr.w.name) then Quiet(s, pr.(st := LLock, w := pr.w.(e := s.names[pr.w.name])))
      else Quiet(s, Cleanup(pr))
    case LLock =>
      // never blocks: a contended candidate is skipped
      if pr.w.e in s.writer || (exists q :: (pr.w.e, q) in s.readers) then Quiet(s, NextCandidate(pr, pr.w.rest))
      else Quiet(s, pr.(st := LStat)).(lock := Take(pr.w.e))
    case LStat =>
      Quiet(s, pr.(st := if Reachable(s, pr.w.name) && s.names[pr.w.name] == pr.w.e then LCompare else LStale))
    case LStale => Quiet(s, pr.(st := LOpen)).(lock := Drop(pr.w.e))
    case LCompare =>
      if s.used[s.names[pr.w.name]] == pr.w.stamp then Quiet(s, pr.(st := LMeasure))
      else Quiet(s, pr.(st := LRelease, w := pr.w.(evict := false, whole := 0)))
    case LSubtract =>
      (match AtomicFile.Resized(s.size, -(pr.w.whole as int), s.limit)
       case Some(size) => Quiet(s, pr.(st := LRelease, w := pr.w.(gone := 0))).(size := size, evicted := true)
       case None => Quiet(s, pr.(st := LRelease)))
    case LRelease =>
      var freed := pr.w.freed + pr.w.whole;
      Quiet(s, if pr.w.evict && freed >= 2 * pr.own.n then pr.(st := SRetry, w := pr.w.(freed := freed))
               else NextCandidate(pr.(w := pr.w.(freed := freed)), pr.w.rest)).(lock := Drop(pr.w.e))
    case LAbort => Quiet(s, Cleanup(pr)).(lock := Drop(pr.w.e))
    case _ => Quiet(s, pr)
  }

  // `_rm_r_object(name)`: everything by path, the lock file last.
  ghost function RemoveStep(s: Cache, pr: Proc): Effect
    requires RunEnabled(s, pr) && IsRemoveStage(pr.st)
  {
    if pr.w.name !in s.names then
      Quiet(s, match pr.st
               case RScan => pr.(st := RData)
               case RData => pr.(st := RLock)
               case RLock => pr.(st := RDir)
               case _ => AfterRemoval(pr))
    else
      var x := s.names[pr.w.name];
      var dir := s.dirs[x];
      match pr.st
      case RInfo =>
        Quiet(s, pr.(st := RScan, w := pr.w.(gone := if dir.info.Some? then dir.info.value else 0)))
          .(dir := Write(x, dir.(info := None)))
      case RScan =>
        Quiet(s, pr.(st := RData)).(dir := Write(x, dir.(data := if dir.data.NoData? then NoData else Partial)))
      case RData => Quiet(s, pr.(st := RLock)).(dir := Write(x, dir.(data := NoData)))
      case RLock => Quiet(s, pr.(st := RDir)).(dir := Write(x, dir.(lock := false)))
      case RDir =>
        if dir == EMPTY then Quiet(s, AfterRemoval(pr)).(name := Unbind(pr.w.name))
        // ENOTEMPTY is not suppressed: the eviction is aborted before de-accounting
        else if pr.w.evict then Quiet(s, pr.(st := LAbort, w := pr.w.(gone := 0))).(lost := s.lost + pr.w.gone)
        else Quiet(s, AfterRemoval(pr))
  }

  ghost function AfterRemoval(pr: Proc): Proc {
    if pr.w.evict then pr.(st := LSubtract) else pr.(st := SUnlock)
  }

  ghost function LoadStep(s: Cache, pr: Proc): Effect {
    match pr.st
    case DOpen =>
      if Reachable(s, pr.w.name) then Quiet(s, pr.(st := DLock, w := pr.w.(e := s.names[pr.w.name])))
      else Quiet(s, pr).(proc := None)   // a miss
    case DLock =>
      if pr.w.e in s.writer then Quiet(s, pr).(proc := None)   // a miss
      else Quiet(s, pr.(st := DStat)).(lock := TakeRead(pr.w.e))
    case DStat =>
      Quiet(s, pr.(st := if Reachable(s, pr.w.name) && s.names[pr.w.name] == pr.w.e then DTouch else DStale))
    case DStale => Quiet(s, pr.(st := DOpen)).(lock := DropRead(pr.w.e))
    case DHold => Quiet(s, pr).(proc := None, lock := DropRead(pr.w.e))
    case _ => Quiet(s, pr)
  }

  // Bytes a process has accounted in `cache.size` that no `object.info` records,
  // or removed from an `object.info` without de-accounting them yet.
  ghost function InFlight(pr: Proc): nat {
    if pr.st.SAccounted? || pr.st.SDeaccount? then pr.own.n
    else if pr.w.evict && (pr.st.RScan? || pr.st.RData? || pr.st.RLock? || pr.st.RDir? || pr.st.LSubtract?) then
      pr.w.gone
    else 0
  }

  ghost predicate Step(s: Cache, s': Cache) {
    exists p, ev :: Enabled(s, p, ev) && s' == Next(s, p, ev)
  }

  ghost predicate Init(s: Cache) {
    && s.names == map[] && s.dirs == map[] && s.writer == map[] && s.readers == {} && s.used == map[]
    && s.size == 0 && s.procs == map[] && s.commits == map[]
    && s.free == 0 && s.broken == {} && s.lost == 0 && !s.evicted
  }

  ghost predicate IsRun(run: seq<Cache>) {
    && |run| > 0 && Init(run[0])
    && forall i :: 0 <= i < |run| - 1 ==> Step(run[i], run[i + 1])
  }
}
