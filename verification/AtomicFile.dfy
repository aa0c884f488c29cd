/**
  The lock, re-stat and replace protocol of the cache (osbuild/util/fscache.py,
  `_atomic_open`, `_atomic_file`, `_update_cache_size` and the `info` setter).

  One cache file is updated by any number of processes.  A lock belongs to an
  inode, while the path can be renamed over at any time, so a process that was
  granted a lock may hold it on a file nobody can reach any more.  Every system
  call that touches shared state is one step, and a process may die (or leave by
  an exception, which releases the same locks) between any two of them.
 */
module AtomicFile {
  import opened Wrappers

  type Pid = nat
  type Inode = nat

  // The parsed content of `cache.size` or of `cache.info`.
  datatype Value = Number(n: int) | Fields(fields: map<string, int>)

  // `_update_cache_size(diff)` of a process whose limit is `limit` (negative for
  // "unlimited"), or an assignment to `info`.
  datatype Request = Resize(diff: int, limit: int) | SetInfo(update: map<string, int>)

  // `_update_cache_size`: capped at zero, refused when the result is over the limit.
  function Resized(size: int, diff: int, limit: int): Option<int> {
    if size + diff < 0 then Some(0)
    else if limit < 0 || size + diff <= limit then Some(size + diff)
    else None
  }

  // What an update makes of the value read; `None` leaves the file alone.
  function Apply(req: Request, v: Value): Option<Value> {
    match (req, v)
    case (Resize(diff, limit), Number(size)) =>
      (match Resized(size, diff, limit) case Some(n) => Some(Number(n)) case None => None)
    case (SetInfo(update), Fields(fields)) => Some(Fields(fields + update))
    case _ => None
  }

  datatype Phase =
    | Opening      // about to open the path
    | Opened       // open, waiting for the lock
    | Locked       // lock granted, path not compared yet
    | Stale        // the path names another inode: unlock and retry
    | Inside       // passed the comparison
    | Loaded       // content read
    | Created      // temporary file created and locked, still empty
    | Written      // temporary file complete
    | Renamed      // temporary file moved over the path
    | Releasing    // about to give the lock back
    | Dead

  // A process working on call number `op`.  `seen` is the number of calls decided
  // when it opened the file and takes no part in any decision.
  datatype PC = PC(
    ph: Phase, op: nat, req: Request, ino: Inode, seen: nat, was: Value, now: Value, tmp: Inode, updated: bool)

  // One decided call: `done` tells a replacement from a refusal.
  datatype Entry = Entry(pid: Pid, op: nat, req: Request, was: Value, now: Value, done: bool)

  // `content` is `None` while a file is still being filled in; a process not in
  // `pcs` is idle.  `reqs`, `log` and `results` record what was asked, decided and
  // answered, and are never read.
  datatype State = State(
    path: Inode,
    content: map<Inode, Option<Value>>,
    locks: map<Inode, Pid>,
    pcs: map<Pid, PC>,
    free: Inode,
    reqs: seq<Request>,
    log: seq<Entry>,
    results: map<nat, bool>)

  datatype Act = Begin(req: Request) | Run | Crash

  ghost predicate Busy(s: State, p: Pid) {
    p in s.pcs && !s.pcs[p].ph.Dead?
  }

  ghost function Unlock(locks: map<Inode, Pid>, i: Inode): map<Inode, Pid> {
    map j | j in locks && j != i :: locks[j]
  }

  ghost function DropAll(locks: map<Inode, Pid>, p: Pid): map<Inode, Pid> {
    map j | j in locks && locks[j] != p :: locks[j]
  }

  // ---------------------------------------------------------------- transitions

  // A step is disabled while the process waits for a lock.
  ghost predicate Enabled(s: State, p: Pid, a: Act) {
    match a
    case Begin(_) => p !in s.pcs
    case Crash => Busy(s, p)
    case Run =>
      && Busy(s, p)
      && (s.pcs[p].ph.Opened? ==> s.pcs[p].ino !in s.locks)
      && (s.pcs[p].ph.Inside? ==> s.pcs[p].ino in s.content && s.content[s.pcs[p].ino].Some?)
  }

  ghost function Next(s: State, p: Pid, a: Act): State
    requires Enabled(s, p, a)
  {
    match a
    case Begin(req) =>
      Go(s, p, PC(Opening, |s.reqs|, req, 0, 0, Number(0), Number(0), 0, false)).(reqs := s.reqs + [req])
    case Crash => Go(s, p, s.pcs[p].(ph := Dead)).(locks := DropAll(s.locks, p))
    case Run => RunStep(s, p, s.pcs[p])
  }

  ghost function Go(s: State, p: Pid, pc: PC): State {
    s.(pcs := s.pcs[p := pc])
  }

  ghost function RunStep(s: State, p: Pid, pc: PC): State
    requires Enabled(s, p, Run) && pc == s.pcs[p]
  {
    match pc.ph
    case Opening => Go(s, p, pc.(ph := Opened, ino := s.path, seen := |s.log|))
    case Opened => Go(s, p, pc.(ph := Locked)).(locks := s.locks[pc.ino := p])
    case Locked => Go(s, p, pc.(ph := if s.path == pc.ino then Inside else Stale))
    case Stale => Go(s, p, pc.(ph := Opening)).(locks := Unlock(s.locks, pc.ino))
    case Inside => Go(s, p, pc.(ph := Loaded, was := s.content[pc.ino].value))
    case Loaded =>
      (match Apply(pc.req, pc.was)
       case None =>
         Go(s, p, pc.(ph := Releasing, updated := false)).(log := s.log + [Refusal(p, pc)])
       case Some(v) =>
         // the temporary file has a unique name: nobody else ever opens it
         Go(s, p, pc.(ph := Created, now := v, tmp := s.free)).(
           content := s.content[s.free := None], locks := s.locks[s.free := p], free := s.free + 1))
    case Created => Go(s, p, pc.(ph := Written)).(content := s.content[pc.tmp := Some(pc.now)])
    case Written =>
      Go(s, p, pc.(ph := Renamed)).(path := pc.tmp, log := s.log + [Replacement(p, pc)])
    case Renamed => Go(s, p, pc.(ph := Releasing, updated := true)).(locks := Unlock(s.locks, pc.tmp))
    case Releasing =>
      s.(pcs := map q | q in s.pcs && q != p :: s.pcs[q], locks := Unlock(s.locks, pc.ino),
         results := s.results[pc.op := pc.updated])
  }

  ghost function Replacement(p: Pid, pc: PC): Entry {
    Entry(p, pc.op, pc.req, pc.was, pc.now, true)
  }

  ghost function Refusal(p: Pid, pc: PC): Entry {
    Entry(p, pc.op, pc.req, pc.was, pc.was, false)
  }

  ghost predicate Step(s: State, s': State) {
    exists p, a :: Enabled(s, p, a) && s' == Next(s, p, a)
  }

  ghost predicate Init(s: State, init: Value) {
    && s.path in s.content && s.content[s.path] == Some(init)
    && (forall i :: i in s.content ==> i < s.free)
    && s.locks == map[] && s.pcs == map[] && s.reqs == [] && s.log == [] && s.results == map[]
  }

  // A run: any number of processes, any interleaving, crashes anywhere.
  ghost predicate IsRun(init: Value, run: seq<State>) {
    && |run| > 0
    && Init(run[0], init)
    && forall i :: 0 <= i < |run| - 1 ==> Step(run[i], run[i + 1])
  }
}
