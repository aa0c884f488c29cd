/**
  What every step of the entry protocol keeps, and the safety of `store` and of
  `_rm_r_object` that follows (osbuild/util/fscache.py:798-1157).
 */
module CacheSafety {
  import opened Wrappers
  import opened CacheEntries

  // ------------------------------------------------------------ stages in groups

  // A store call: owns the lock of its own entry `d` from beginning to end.
  ghost predicate Storing(st: Stage) {
    !st.DOpen? && !st.DLock? && !st.DStat? && !st.DStale? && !st.DTouch? && !st.DHold? && !st.Dead?
  }

  ghost predicate Removing(st: Stage) {
    st.RInfo? || st.RScan? || st.RData? || st.RLock? || st.RDir?
  }

  // Holds the write lock of a candidate `e` other than its own entry.
  ghost predicate Walking(pr: Proc) {
    || pr.st.LStat? || pr.st.LStale? || pr.st.LCompare? || pr.st.LMeasure?
    || pr.st.LSubtract? || pr.st.LRelease? || pr.st.LAbort?
    || (pr.w.evict && Removing(pr.st))
  }

  // Holds a read lock.
  ghost predicate Reading(st: Stage) {
    st.DStat? || st.DStale? || st.DTouch? || st.DHold?
  }

  // Relies on `name` leading to `e`, whose lock file is in place.
  ghost predicate Anchored(pr: Proc) {
    || pr.st.DTouch? || pr.st.DHold? || pr.st.LCompare? || pr.st.LMeasure?
    || pr.st.RInfo? || pr.st.RScan? || pr.st.RData? || pr.st.RLock?
  }

  // A remover between the first deleted data file and the deleted lock file.
  ghost predicate Tearing(pr: Proc, x: Id) {
    pr.w.e == x && (pr.st.RData? || pr.st.RLock?)
  }

  // Still at its anonymous name, with `own` as content.
  ghost predicate HasOwn(pr: Proc) {
    Storing(pr.st) && !pr.st.SMkdir? && !pr.st.SUnlock? && !(Removing(pr.st) && !pr.w.evict)
  }

  ghost function OwnDir(pr: Proc): Dir {
    match pr.st
    case SLink => EMPTY
    case SMkdata => Dir(true, None, NoData)
    case SFill => Dir(true, None, Partial)
    case SInfo => Dir(true, Some(pr.own.n), Complete(pr.own.val, pr.own.n))
    case SCollided => Dir(true, Some(pr.own.n), Complete(pr.own.val, pr.own.n))
    case _ => Dir(true, None, Complete(pr.own.val, pr.own.n))
  }

  // ------------------------------------------------------------------ invariant

  // Every number handed out is a directory; every name leads to one.
  ghost predicate NumbersInv(s: Cache) {
    && (forall m :: m in s.names ==> s.names[m] in s.dirs)
    && (forall x: Id :: x in s.dirs <==> x < s.free)
    && (forall x: Id :: x in s.used <==> x < s.free)
    && (forall x :: x in s.commits ==> x in s.dirs)
  }

  // Names are one-to-one, an anonymous name is the one its entry was made with,
  // and a caller's name was committed under that name.
  ghost predicate BindingInv(names: map<Name, Id>, commits: map<Id, Commit>) {
    && (forall u :: Uuid(u) in names ==> names[Uuid(u)] == u)
    && (forall l, m :: l in names && m in names && names[l] == names[m] ==> l == m)
    && (forall k :: Named(k) in names ==> names[Named(k)] in commits && commits[names[Named(k)]].key == k)
  }

  ghost predicate NamesInv(s: Cache) {
    NumbersInv(s) && BindingInv(s.names, s.commits)
  }

  ghost predicate DirsInv(s: Cache) {
    forall x :: x in s.dirs ==>
      && (s.dirs[x].info.Some? ==> s.dirs[x].data.Complete? && s.dirs[x].data.size == s.dirs[x].info.value)
      && (!s.dirs[x].lock ==> s.dirs[x] == EMPTY)
  }

  ghost predicate LocksInv(s: Cache) {
    && (forall x :: x in s.writer ==> x in s.dirs && s.writer[x] in s.procs)
    && (forall x, q :: (x, q) in s.readers ==> x in s.dirs && x !in s.writer && q in s.procs)
  }

  // A named entry is complete unless its remover is at work on it or died there.
  ghost predicate Intact(s: Cache, x: Id) {
    x in s.commits && x in s.dirs && s.dirs[x].data == Complete(s.commits[x].val, s.commits[x].size)
  }

  ghost predicate DataInv(s: Cache) {
    forall k :: Named(k) in s.names ==>
      var x := s.names[Named(k)];
      x in s.dirs && (s.dirs[x].lock ==>
        || Intact(s, x)
        || x in s.broken
        || (x in s.writer && s.writer[x] in s.procs && Tearing(s.procs[s.writer[x]], x)))
  }

  ghost predicate Unnamed(s: Cache, x: Id) {
    forall m :: m in s.names ==> s.names[m] != x
  }

  ghost predicate StoreInv(s: Cache, p: Pid, pr: Proc) {
    Storing(pr.st) ==>
      && Mine(s, pr.own.d, p) && pr.own.d in s.dirs
      && (pr.own.d in s.commits ==> pr.st.SUnlock?)
      && (pr.st.SMkdir? ==> Unnamed(s, pr.own.d) && s.dirs[pr.own.d] == EMPTY)
      && (HasOwn(pr) ==>
            Uuid(pr.own.d) in s.names && s.names[Uuid(pr.own.d)] == pr.own.d && s.dirs[pr.own.d] == OwnDir(pr))
  }

  ghost predicate WalkInv(s: Cache, p: Pid, pr: Proc) {
    && (pr.st.LLock? || Walking(pr) ==> pr.w.e in s.dirs && (pr.w.name.Uuid? ==> pr.w.name.id == pr.w.e))
    && (Walking(pr) ==> Mine(s, pr.w.e, p) && pr.w.e != pr.own.d)
    && (Removing(pr.st) && !pr.w.evict ==> pr.w.e == pr.own.d && pr.w.name == Uuid(pr.own.d))
    && (Anchored(pr) ==>
          pr.w.name in s.names && s.names[pr.w.name] == pr.w.e && pr.w.e in s.dirs && s.dirs[pr.w.e].lock)
    && (pr.st.RScan? || pr.st.RData? || pr.st.RLock? ==> s.dirs[pr.w.e].info.None?)
    && (pr.st.RLock? ==> s.dirs[pr.w.e].data.NoData?)
    && (!pr.w.evict && pr.st.RInfo? ==> s.dirs[pr.w.e].info.None?)
    && (pr.w.evict && pr.st.RInfo? && s.dirs[pr.w.e].info.Some? ==> s.dirs[pr.w.e].info.value <= pr.w.whole)
    && (pr.w.evict && (pr.st.RScan? || pr.st.RData? || pr.st.RLock? || pr.st.RDir? || pr.st.LSubtract?) ==>
          pr.w.gone <= pr.w.whole)
    && (pr.st.LSubtract? ==> pr.w.evict)
  }

  ghost predicate ReadInv(s: Cache, p: Pid, pr: Proc) {
    && (Reading(pr.st) ==> (pr.w.e, p) in s.readers)
    && (!Storing(pr.st) ==> pr.w.name == Named(pr.own.key) || pr.st.Dead?)
    && (pr.st.DLock? || Reading(pr.st) ==> pr.w.e in s.dirs)
  }

  // The locks a process holds are the ones its stage says.
  ghost predicate HoldsInv(s: Cache, p: Pid, pr: Proc) {
    && (forall x :: Mine(s, x, p) ==> (Storing(pr.st) && x == pr.own.d) || (Walking(pr) && x == pr.w.e))
    && (forall x :: (x, p) in s.readers ==> Reading(pr.st) && x == pr.w.e)
  }

  ghost predicate ProcInv(s: Cache, p: Pid) {
    p in s.procs ==>
      StoreInv(s, p, s.procs[p]) && WalkInv(s, p, s.procs[p]) && ReadInv(s, p, s.procs[p]) && HoldsInv(s, p, s.procs[p])
  }

  ghost predicate Mine(s: Cache, x: Id, p: Pid) {
    x in s.writer && s.writer[x] == p
  }

  ghost predicate SharedInv(s: Cache) {
    NamesInv(s) && DirsInv(s) && LocksInv(s) && DataInv(s)
  }

  ghost predicate Inv(s: Cache) {
    SharedInv(s) && forall p :: ProcInv(s, p)
  }

  // -------------------------------------------------- what one process owes others

  // A step of `p` changes only directories whose lock `p` holds, moves only names
  // of such directories, and may take over the name of an empty one.
  ghost predicate Fair(s: Cache, s': Cache, p: Pid) {
    && (forall q :: q != p ==> (q in s.procs <==> q in s'.procs) && (q in s.procs ==> s'.procs[q] == s.procs[q]))
    && (forall x, q :: q != p ==> (Mine(s, x, q) <==> Mine(s', x, q)))
    && (forall x, q :: q != p ==> ((x, q) in s.readers <==> (x, q) in s'.readers))
    && (forall x :: x in s.dirs ==> x in s'.dirs && (Mine(s, x, p) || s'.dirs[x] == s.dirs[x]))
    && (forall m :: m in s.names && s.names[m] in s.dirs && !Mine(s, s.names[m], p) ==>
          s.dirs[s.names[m]].lock || m.Uuid? ==> m in s'.names && s'.names[m] == s.names[m])
    && (forall m :: m in s'.names ==> (m in s.names && s'.names[m] == s.names[m]) || Mine(s, s'.names[m], p))
    && (forall x :: x in s.commits ==> x in s'.commits && s'.commits[x] == s.commits[x])
    && (forall x :: x in s'.commits && x !in s.commits ==> Mine(s, x, p))
  }

  // The operations a step may carry out; everything else follows from this.
  ghost predicate DirOk(s: Cache, p: Pid, op: DirOp) {
    match op
    case Write(x, dir) =>
      && Mine(s, x, p) && x in s.dirs
      && (dir.info.Some? ==> dir.data.Complete? && dir.data.size == dir.info.value)
      && (!dir.lock ==> dir == EMPTY)
    case Touch(x, _) => x in s.used
    case _ => true
  }

  ghost predicate LockOk(s: Cache, p: Pid, e: Effect) {
    match e.lock
    case Take(x) =>
      && e.proc.Some?
      && if e.dir.Make? then x == s.free else x in s.dirs && x !in s.writer && forall q :: (x, q) !in s.readers
    case Drop(x) => Mine(s, x, p)
    case TakeRead(x) => e.proc.Some? && x in s.dirs && x !in s.writer
    case _ => true
  }

  ghost predicate NameOk(s: Cache, p: Pid, op: NameOp) {
    match op
    case NoName => true
    case Bind(x) => Mine(s, x, p) && x in s.dirs && Unnamed(s, x)
    case Move(x, key, commit) =>
      && Mine(s, x, p) && x in s.dirs && x !in s.commits && commit.key == key
      && Uuid(x) in s.names && s.names[Uuid(x)] == x
      && (Named(key) in s.names ==> s.names[Named(key)] in s.dirs && s.dirs[s.names[Named(key)]] == EMPTY)
    case Unbind(name) =>
      && name in s.names && s.names[name] in s.dirs && s.dirs[s.names[name]] == EMPTY
      && (name.Uuid? ==> Mine(s, s.names[name], p))
  }

  ghost predicate OpsOk(s: Cache, p: Pid, e: Effect) {
    DirOk(s, p, e.dir) && LockOk(s, p, e) && NameOk(s, p, e.name)
  }

  lemma FairDirsAndLocks(s: Cache, p: Pid, e: Effect)
    requires NamesInv(s) && LocksInv(s) && OpsOk(s, p, e)
    ensures var s' := Apply(s, p, e);
      && (forall q :: q != p ==> (q in s.procs <==> q in s'.procs) && (q in s.procs ==> s'.procs[q] == s.procs[q]))
      && (forall x, q :: q != p ==> (Mine(s, x, q) <==> Mine(s', x, q)))
      && (forall x, q :: q != p ==> ((x, q) in s.readers <==> (x, q) in s'.readers))
      && (forall x :: x in s.dirs ==> x in s'.dirs && (Mine(s, x, p) || s'.dirs[x] == s.dirs[x]))
  {
  }

  lemma FairNames(s: Cache, p: Pid, e: Effect)
    requires NamesInv(s) && OpsOk(s, p, e)
    ensures var s' := Apply(s, p, e);
      && (forall m :: m in s.names && s.names[m] in s.dirs && !Mine(s, s.names[m], p) ==>
            s.dirs[s.names[m]].lock || m.Uuid? ==> m in s'.names && s'.names[m] == s.names[m])
      && (forall m :: m in s'.names ==> (m in s.names && s'.names[m] == s.names[m]) || Mine(s, s'.names[m], p))
      && (forall x :: x in s.commits ==> x in s'.commits && s'.commits[x] == s.commits[x])
      && (forall x :: x in s'.commits && x !in s.commits ==> Mine(s, x, p))
  {
  }

  lemma BindingStep(s: Cache, p: Pid, e: Effect)
    requires BindingInv(s.names, s.commits) && NameOk(s, p, e.name)
    ensures BindingInv(Apply(s, p, e).names, Apply(s, p, e).commits)
  {
    match e.name
    case NoName =>
    case Bind(x) =>
    case Move(x, key, commit) =>
    case Unbind(name) =>
  }

  lemma NamesStep(s: Cache, p: Pid, e: Effect)
    requires NamesInv(s) && OpsOk(s, p, e)
    ensures NamesInv(Apply(s, p, e))
  {
    BindingStep(s, p, e);
    assert NumbersInv(Apply(s, p, e));
  }

  lemma DirsStep(s: Cache, p: Pid, e: Effect)
    requires DirsInv(s) && OpsOk(s, p, e)
    ensures DirsInv(Apply(s, p, e))
  {
  }

  // A call that returns gives back the locks it still has.
  ghost predicate ReturnOk(s: Cache, p: Pid, e: Effect) {
    e.proc.None? ==>
      (forall x :: Mine(s, x, p) ==> e.lock == Drop(x)) && (forall x :: (x, p) in s.readers ==> e.lock == DropRead(x))
  }

  lemma LocksStep(s: Cache, p: Pid, e: Effect)
    requires LocksInv(s) && NamesInv(s) && OpsOk(s, p, e)
    requires ReturnOk(s, p, e)
    ensures LocksInv(Apply(s, p, e))
  {
    var s' := Apply(s, p, e);
    forall x | x in s'.writer ensures x in s'.dirs && s'.writer[x] in s'.procs {
      assert s'.writer[x] == p ==> Mine(s, x, p) || e.lock == Take(x);
    }
    match e.lock
    case NoLock =>
    case Take(_) =>
    case Drop(_) =>
    case TakeRead(_) =>
    case DropRead(_) =>
    case DropAll =>
  }

  lemma ProcOther(s: Cache, p: Pid, s': Cache, q: Pid)
    requires NamesInv(s) && NamesInv(s') && LocksInv(s) && ProcInv(s, q) && Fair(s, s', p) && q != p
    ensures ProcInv(s', q)
  {
    if q in s.procs {
      var pr := s.procs[q];
      assert StoreInv(s, q, pr) && WalkInv(s, q, pr) && ReadInv(s, q, pr);
      assert StoreInv(s', q, pr);
      assert WalkInv(s', q, pr);
      assert ReadInv(s', q, pr) && HoldsInv(s', q, pr);
    }
  }

  // ----------------------------------------------------- every stage keeps to them

  ghost predicate Local(s: Cache, p: Pid) {
    NamesInv(s) && DirsInv(s) && LocksInv(s) && p in s.procs && ProcInv(s, p)
  }

  // What an effect promises about committed data: it is left alone, or torn by a
  // remover who says so, or gone with the lock file.
  ghost predicate DataOk(s: Cache, p: Pid, pr: Proc, e: Effect) {
    && (e.dir.Write? && e.dir.x in s.commits && e.dir.dir.lock ==> e.dir.x in s.dirs && s.dirs[e.dir.x].lock)
    && (e.dir.Write? && e.dir.x in s.commits && e.dir.dir.lock ==>
          || (e.dir.x in s.dirs && e.dir.dir.data == s.dirs[e.dir.x].data)
          || (e.proc.Some? && Tearing(e.proc.value, e.dir.x) && e.lock == NoLock))
    && (Tearing(pr, pr.w.e) && Mine(s, pr.w.e, p) ==>
          || (e.proc.Some? && Tearing(e.proc.value, pr.w.e) && e.lock == NoLock)
          || pr.w.e in e.broke
          || (e.dir.Write? && e.dir.x == pr.w.e && !e.dir.dir.lock))
    && (e.name.Move? ==>
          && e.name.x in s.dirs && e.dir == NoDir
          && s.dirs[e.name.x].data == Complete(e.name.commit.val, e.name.commit.size))
  }

  ghost predicate EffectOk(s: Cache, p: Pid, pr: Proc, e: Effect) {
    OpsOk(s, p, e) && DataOk(s, p, pr, e) && ReturnOk(s, p, e)
  }

  ghost predicate IsStoreStage(st: Stage) {
    Storing(st) && !IsRemoveStage(st) && !IsEvictStage(st)
  }

  lemma StoreOps(s: Cache, p: Pid)
    requires Local(s, p) && RunEnabled(s, s.procs[p]) && IsStoreStage(s.procs[p].st)
    ensures OpsOk(s, p, StoreStep(s, s.procs[p]))
  {
    match s.procs[p].st
    case SMkdir =>
    case SLink =>
    case SMkdata =>
    case SFilled =>
    case SRetry =>
    case SAccounted =>
    case SInfo =>
    case SCollided =>
    case SDeaccount =>
    case SUnlock =>
    case _ =>
  }

  lemma StoreOk(s: Cache, p: Pid)
    requires Local(s, p) && RunEnabled(s, s.procs[p]) && IsStoreStage(s.procs[p].st)
    ensures EffectOk(s, p, s.procs[p], StoreStep(s, s.procs[p]))
  {
    StoreOps(s, p);
    assert HoldsInv(s, p, s.procs[p]);
    match s.procs[p].st
    case SMkdir =>
    case SLink =>
    case SMkdata =>
    case SFilled =>
    case SRetry =>
    case SAccounted =>
    case SInfo =>
    case SCollided =>
    case SDeaccount =>
    case SUnlock =>
    case _ =>
  }

  // Evicting only takes and gives back locks, besides removing.
  lemma EvictShape(s: Cache, p: Pid)
    requires p in s.procs && RunEnabled(s, s.procs[p]) && IsEvictStage(s.procs[p].st)
    ensures var e := EvictStep(s, s.procs[p]); e.dir == NoDir && e.name == NoName && e.proc.Some? && e.broke == {}
  {
    match s.procs[p].st
    case LOpen =>
    case LLock =>
    case LStat =>
    case LStale =>
    case LCompare =>
    case LSubtract =>
    case LRelease =>
    case LAbort =>
    case _ =>
  }

  lemma EvictLocks(s: Cache, p: Pid)
    requires p in s.procs && WalkInv(s, p, s.procs[p]) && RunEnabled(s, s.procs[p]) && IsEvictStage(s.procs[p].st)
    ensures var e := EvictStep(s, s.procs[p]);
      && (e.lock == NoLock || e.lock == Take(s.procs[p].w.e) || e.lock == Drop(s.procs[p].w.e))
      && LockOk(s, p, e)
  {
    match s.procs[p].st
    case LOpen =>
    case LLock =>
    case LStat =>
    case LStale =>
    case LCompare =>
    case LSubtract =>
    case LRelease =>
    case LAbort =>
    case _ =>
  }

  lemma EvictOk(s: Cache, p: Pid)
    requires Local(s, p) && RunEnabled(s, s.procs[p]) && IsEvictStage(s.procs[p].st)
    ensures EffectOk(s, p, s.procs[p], EvictStep(s, s.procs[p]))
  {
    EvictShape(s, p);
    EvictLocks(s, p);
  }

  lemma RemoveOk(s: Cache, p: Pid)
    requires Local(s, p) && RunEnabled(s, s.procs[p]) && IsRemoveStage(s.procs[p].st)
    ensures EffectOk(s, p, s.procs[p], RemoveStep(s, s.procs[p]))
  {
    match s.procs[p].st
    case RInfo =>
    case RScan =>
    case RData =>
    case RLock =>
    case RDir =>
  }

  lemma LoadOk(s: Cache, p: Pid)
    requires Local(s, p) && IsLoadStage(s.procs[p].st)
    ensures EffectOk(s, p, s.procs[p], LoadStep(s, s.procs[p]))
  {
    match s.procs[p].st
    case DOpen =>
    case DLock =>
    case DStat =>
    case DStale =>
    case DHold =>
    case _ =>
  }

  lemma LocksAfter(s: Cache, p: Pid, e: Effect)
    ensures var s' := Apply(s, p, e);
      && (forall x :: Mine(s', x, p) ==> e.lock == Take(x) || (Mine(s, x, p) && e.lock != Drop(x) && e.lock != DropAll))
      && (forall x :: (x, p) in s'.readers ==>
            e.lock == TakeRead(x) || ((x, p) in s.readers && e.lock != DropRead(x) && e.lock != DropAll))
  {
  }

  // The stage a process goes to owns up to the locks it keeps.
  ghost predicate KeepsTrack(pr: Proc, e: Effect) {
    e.proc.Some? ==>
      var pr' := e.proc.value;
      && (e.lock.Take? ==> (Storing(pr'.st) && e.lock.x == pr'.own.d) || (Walking(pr') && e.lock.x == pr'.w.e))
      && (Storing(pr.st) && e.lock != Drop(pr.own.d) && e.lock != DropAll ==> Storing(pr'.st) && pr'.own.d == pr.own.d)
      && (Walking(pr) && e.lock != Drop(pr.w.e) && e.lock != DropAll ==> Walking(pr') && pr'.w.e == pr.w.e)
      && (e.lock.TakeRead? ==> Reading(pr'.st) && e.lock.x == pr'.w.e)
      && (Reading(pr.st) && e.lock != DropRead(pr.w.e) && e.lock != DropAll ==> Reading(pr'.st) && pr'.w.e == pr.w.e)
  }

  lemma HoldsStep(s: Cache, p: Pid, e: Effect)
    requires p in s.procs && HoldsInv(s, p, s.procs[p]) && KeepsTrack(s.procs[p], e) && e.proc.Some?
    ensures HoldsInv(Apply(s, p, e), p, e.proc.value)
  {
    LocksAfter(s, p, e);
  }

  // What the invariant says of a process standing at `pr`.
  ghost predicate Fits(s: Cache, p: Pid, pr: Proc) {
    StoreInv(s, p, pr) && WalkInv(s, p, pr) && ReadInv(s, p, pr)
  }

  // What the stage reached asks of the shared state holds after the step: one lemma
  // for each stage.
  ghost predicate StageOk(s: Cache, p: Pid, e: Effect) {
    e.proc.Some? ==> Fits(Apply(s, p, e), p, e.proc.value)
  }

  // A step that moves the process and at most gives one lock back.
  lemma StillFits(s: Cache, p: Pid, e: Effect)
    requires e.proc.Some? && e.dir == NoDir && e.name == NoName && Fits(s, p, e.proc.value)
    requires e.lock == NoLock ||
      (e.lock.Drop? && (Storing(e.proc.value.st) ==> e.lock.x != e.proc.value.own.d)
                    && (Walking(e.proc.value) ==> e.lock.x != e.proc.value.w.e))
    ensures StageOk(s, p, e)
  {
  }

  lemma UnboundFits(s: Cache, p: Pid, e: Effect)
    requires e.proc.Some? && e.dir == NoDir && e.lock == NoLock && e.name.Unbind? && Fits(s, p, e.proc.value)
    requires !Anchored(e.proc.value) && (HasOwn(e.proc.value) ==> e.name.name != Uuid(e.proc.value.own.d))
    ensures StageOk(s, p, e)
  {
  }

  lemma ReleaseShape(s: Cache, pr: Proc)
    requires RunEnabled(s, pr) && pr.st.LRelease?
    ensures var e := EvictStep(s, pr); var freed := pr.w.freed + pr.w.whole;
      && e.dir == NoDir && e.name == NoName && e.lock == Drop(pr.w.e)
      && e.proc == Some(if pr.w.evict && freed >= 2 * pr.own.n then pr.(st := SRetry, w := pr.w.(freed := freed))
                        else NextCandidate(pr.(w := pr.w.(freed := freed)), pr.w.rest))
  {
  }

  // A step that rewrites the own entry and moves on with the store.
  lemma RewrittenFits(s: Cache, p: Pid, pr: Proc, e: Effect)
    requires e.proc.Some? && e.lock == NoLock && e.name == NoName && e.dir == Write(pr.own.d, OwnDir(e.proc.value))
    requires Fits(s, p, pr) && HasOwn(pr) && e.proc.value.own.d == pr.own.d && e.proc.value.w == pr.w
    requires HasOwn(e.proc.value) && !Walking(e.proc.value) && !Anchored(e.proc.value)
    requires !e.proc.value.st.LLock? && !Removing(e.proc.value.st) && !e.proc.value.st.LSubtract?
    ensures StageOk(s, p, e)
  {
  }

  // A store with its entry complete and not accounted can turn to cleaning up ...
  lemma CleanupFits(s: Cache, p: Pid, pr: Proc)
    requires Fits(s, p, pr) && HasOwn(pr) && OwnDir(pr).lock && OwnDir(pr).info.None?
    ensures Fits(s, p, Cleanup(pr))
  {
  }

  // ... or to the next candidate.
  lemma NextFits(s: Cache, p: Pid, pr: Proc, rest: seq<Candidate>)
    requires StoreInv(s, p, pr) && HasOwn(pr) && OwnDir(pr) == Dir(true, None, Complete(pr.own.val, pr.own.n))
    ensures Fits(s, p, NextCandidate(pr, rest))
  {
  }

  lemma FromSMkdir(s: Cache, p: Pid, pr: Proc)
    requires Fits(s, p, pr) && RunEnabled(s, pr) && pr.st.SMkdir?
    ensures StageOk(s, p, StoreStep(s, pr))
  {
  }

  lemma FromSLink(s: Cache, p: Pid, pr: Proc)
    requires Fits(s, p, pr) && RunEnabled(s, pr) && pr.st.SLink?
    ensures StageOk(s, p, StoreStep(s, pr))
  {
    RewrittenFits(s, p, pr, StoreStep(s, pr));
  }

  lemma FromSMkdata(s: Cache, p: Pid, pr: Proc)
    requires Fits(s, p, pr) && RunEnabled(s, pr) && pr.st.SMkdata?
    ensures StageOk(s, p, StoreStep(s, pr))
  {
    RewrittenFits(s, p, pr, StoreStep(s, pr));
  }

  lemma FromSFilled(s: Cache, p: Pid, pr: Proc)
    requires Fits(s, p, pr) && RunEnabled(s, pr) && pr.st.SFilled?
    ensures StageOk(s, p, StoreStep(s, pr))
  {
    CleanupFits(s, p, pr);
    var e := StoreStep(s, pr);
    StillFits(s, p, e);
  }

  lemma FromSRetry(s: Cache, p: Pid, pr: Proc)
    requires Fits(s, p, pr) && RunEnabled(s, pr) && pr.st.SRetry?
    ensures StageOk(s, p, StoreStep(s, pr))
  {
    CleanupFits(s, p, pr);
    StillFits(s, p, StoreStep(s, pr));
  }

  lemma FromSAccounted(s: Cache, p: Pid, pr: Proc)
    requires Fits(s, p, pr) && RunEnabled(s, pr) && pr.st.SAccounted?
    ensures StageOk(s, p, StoreStep(s, pr))
  {
    RewrittenFits(s, p, pr, StoreStep(s, pr));
  }

  lemma CollidedFits(s: Cache, p: Pid, pr: Proc)
    requires Fits(s, p, pr) && pr.st.SInfo?
    ensures Fits(s, p, pr.(st := SCollided))
  {
  }

  // After the rename the entry is nobody's own any more; the lock is still held.
  lemma RenamedFits(s: Cache, p: Pid, pr: Proc, e: Effect)
    requires Fits(s, p, pr) && pr.st.SInfo? && e.proc == Some(pr.(st := SUnlock)) && e.dir == NoDir && e.lock == NoLock
    ensures StageOk(s, p, e)
  {
  }

  lemma FromSInfo(s: Cache, p: Pid, pr: Proc)
    requires Fits(s, p, pr) && RunEnabled(s, pr) && pr.st.SInfo?
    ensures StageOk(s, p, StoreStep(s, pr))
  {
    if Named(pr.own.key) !in s.names || s.dirs[s.names[Named(pr.own.key)]] == EMPTY {
      RenamedFits(s, p, pr, StoreStep(s, pr));
    } else {
      CollidedFits(s, p, pr);
      StillFits(s, p, StoreStep(s, pr));
    }
  }

  lemma FromSCollided(s: Cache, p: Pid, pr: Proc)
    requires Fits(s, p, pr) && RunEnabled(s, pr) && pr.st.SCollided?
    ensures StageOk(s, p, StoreStep(s, pr))
  {
    RewrittenFits(s, p, pr, StoreStep(s, pr));
  }

  lemma FromSDeaccount(s: Cache, p: Pid, pr: Proc)
    requires Fits(s, p, pr) && RunEnabled(s, pr) && pr.st.SDeaccount?
    ensures StageOk(s, p, StoreStep(s, pr))
  {
    StillFits(s, p, StoreStep(s, pr));
  }

  lemma FromSUnlock(s: Cache, p: Pid, pr: Proc)
    requires Fits(s, p, pr) && RunEnabled(s, pr) && pr.st.SUnlock?
    ensures StageOk(s, p, StoreStep(s, pr))
  {
  }

  lemma FromLOpen(s: Cache, p: Pid, pr: Proc)
    requires Fits(s, p, pr) && RunEnabled(s, pr) && pr.st.LOpen?
    requires Reachable(s, pr.w.name) ==>
      s.names[pr.w.name] in s.dirs && (pr.w.name.Uuid? ==> s.names[pr.w.name] == pr.w.name.id)
    ensures StageOk(s, p, EvictStep(s, pr))
  {
    CleanupFits(s, p, pr);
    StillFits(s, p, EvictStep(s, pr));
  }

  lemma FromLLock(s: Cache, p: Pid, pr: Proc)
    requires Fits(s, p, pr) && RunEnabled(s, pr) && pr.st.LLock?
    ensures StageOk(s, p, EvictStep(s, pr))
  {
    if pr.w.e in s.writer || (exists q :: (pr.w.e, q) in s.readers) {
      NextFits(s, p, pr, pr.w.rest);
      StillFits(s, p, EvictStep(s, pr));
    }
  }

  lemma FromLStat(s: Cache, p: Pid, pr: Proc)
    requires Fits(s, p, pr) && RunEnabled(s, pr) && pr.st.LStat?
    ensures StageOk(s, p, EvictStep(s, pr))
  {
    StillFits(s, p, EvictStep(s, pr));
  }

  lemma FromLStale(s: Cache, p: Pid, pr: Proc)
    requires Fits(s, p, pr) && RunEnabled(s, pr) && pr.st.LStale?
    ensures StageOk(s, p, EvictStep(s, pr))
  {
    StillFits(s, p, EvictStep(s, pr));
  }

  lemma FromLCompare(s: Cache, p: Pid, pr: Proc)
    requires Fits(s, p, pr) && RunEnabled(s, pr) && pr.st.LCompare?
    ensures StageOk(s, p, EvictStep(s, pr))
  {
    StillFits(s, p, EvictStep(s, pr));
  }

  lemma FromLSubtract(s: Cache, p: Pid, pr: Proc)
    requires Fits(s, p, pr) && RunEnabled(s, pr) && pr.st.LSubtract?
    ensures StageOk(s, p, EvictStep(s, pr))
  {
    StillFits(s, p, EvictStep(s, pr));
  }

  lemma FromLRelease(s: Cache, p: Pid, pr: Proc)
    requires Fits(s, p, pr) && RunEnabled(s, pr) && pr.st.LRelease?
    ensures StageOk(s, p, EvictStep(s, pr))
  {
    var freed := pr.w.freed + pr.w.whole;
    if pr.w.evict && freed >= 2 * pr.own.n {
      assert Fits(s, p, pr.(st := SRetry, w := pr.w.(freed := freed)));
    } else {
      NextFits(s, p, pr.(w := pr.w.(freed := freed)), pr.w.rest);
    }
    ReleaseShape(s, pr);
    StillFits(s, p, EvictStep(s, pr));
  }

  lemma FromLAbort(s: Cache, p: Pid, pr: Proc)
    requires Fits(s, p, pr) && RunEnabled(s, pr) && pr.st.LAbort?
    ensures StageOk(s, p, EvictStep(s, pr))
  {
    CleanupFits(s, p, pr);
    StillFits(s, p, EvictStep(s, pr));
  }

  lemma FromRInfo(s: Cache, p: Pid, pr: Proc)
    requires Fits(s, p, pr) && RunEnabled(s, pr) && pr.st.RInfo?
    ensures StageOk(s, p, RemoveStep(s, pr))
  {
  }

  lemma FromRScan(s: Cache, p: Pid, pr: Proc)
    requires Fits(s, p, pr) && RunEnabled(s, pr) && pr.st.RScan?
    ensures StageOk(s, p, RemoveStep(s, pr))
  {
  }

  lemma FromRData(s: Cache, p: Pid, pr: Proc)
    requires Fits(s, p, pr) && RunEnabled(s, pr) && pr.st.RData?
    ensures StageOk(s, p, RemoveStep(s, pr))
  {
  }

  lemma FromRLock(s: Cache, p: Pid, pr: Proc)
    requires Fits(s, p, pr) && RunEnabled(s, pr) && pr.st.RLock?
    ensures StageOk(s, p, RemoveStep(s, pr))
  {
  }

  lemma RemovedFits(s: Cache, p: Pid, pr: Proc)
    requires Fits(s, p, pr) && pr.st.RDir?
    ensures Fits(s, p, AfterRemoval(pr)) && !Anchored(AfterRemoval(pr))
    ensures HasOwn(AfterRemoval(pr)) ==> pr.w.evict && pr.w.name != Uuid(pr.own.d)
  {
  }

  lemma AbortFits(s: Cache, p: Pid, pr: Proc)
    requires Fits(s, p, pr) && pr.st.RDir? && pr.w.evict
    ensures Fits(s, p, pr.(st := LAbort, w := pr.w.(gone := 0)))
  {
  }

  lemma FromRDir(s: Cache, p: Pid, pr: Proc)
    requires Fits(s, p, pr) && RunEnabled(s, pr) && pr.st.RDir?
    ensures StageOk(s, p, RemoveStep(s, pr))
  {
    RemovedFits(s, p, pr);
    var e := RemoveStep(s, pr);
    if pr.w.name !in s.names || (s.dirs[s.names[pr.w.name]] != EMPTY && !pr.w.evict) {
      StillFits(s, p, e);
    } else if s.dirs[s.names[pr.w.name]] == EMPTY {
      UnboundFits(s, p, e);
    } else {
      AbortFits(s, p, pr);
      StillFits(s, p, e);
    }
  }

  lemma FromDOpen(s: Cache, p: Pid, pr: Proc)
    requires Fits(s, p, pr) && RunEnabled(s, pr) && pr.st.DOpen?
    requires Reachable(s, pr.w.name) ==>
      s.names[pr.w.name] in s.dirs && (pr.w.name.Uuid? ==> s.names[pr.w.name] == pr.w.name.id)
    ensures StageOk(s, p, LoadStep(s, pr))
  {
    var e := LoadStep(s, pr);
    if e.proc.Some? {
      StillFits(s, p, e);
    }
  }

  lemma FromDLock(s: Cache, p: Pid, pr: Proc)
    requires Fits(s, p, pr) && RunEnabled(s, pr) && pr.st.DLock?
    ensures StageOk(s, p, LoadStep(s, pr))
  {
  }

  lemma FromDStat(s: Cache, p: Pid, pr: Proc)
    requires Fits(s, p, pr) && RunEnabled(s, pr) && pr.st.DStat?
    ensures StageOk(s, p, LoadStep(s, pr))
  {
  }

  lemma FromDStale(s: Cache, p: Pid, pr: Proc)
    requires Fits(s, p, pr) && RunEnabled(s, pr) && pr.st.DStale?
    ensures StageOk(s, p, LoadStep(s, pr))
  {
  }

  lemma FromDHold(s: Cache, p: Pid, pr: Proc)
    requires Fits(s, p, pr) && RunEnabled(s, pr) && pr.st.DHold?
    ensures StageOk(s, p, LoadStep(s, pr))
  {
  }

  lemma StoreTracks(s: Cache, p: Pid, pr: Proc)
    requires WalkInv(s, p, pr) && RunEnabled(s, pr) && IsStoreStage(pr.st)
    ensures KeepsTrack(pr, StoreStep(s, pr))
  {
    match pr.st
    case SMkdir =>
    case SLink =>
    case SMkdata =>
    case SFilled =>
    case SRetry =>
    case SAccounted =>
    case SInfo =>
    case SCollided =>
    case SDeaccount =>
    case SUnlock =>
    case _ =>
  }

  lemma ReleaseTracks(s: Cache, p: Pid, pr: Proc)
    requires WalkInv(s, p, pr) && RunEnabled(s, pr) && pr.st.LRelease?
    ensures KeepsTrack(pr, EvictStep(s, pr))
  {
    ReleaseShape(s, pr);
  }

  lemma ChooseTracks(s: Cache, p: Pid, pr: Proc)
    requires WalkInv(s, p, pr) && RunEnabled(s, pr) && (pr.st.LOpen? || pr.st.LLock?)
    ensures KeepsTrack(pr, EvictStep(s, pr))
  {
  }

  lemma EvictTracks(s: Cache, p: Pid, pr: Proc)
    requires WalkInv(s, p, pr) && RunEnabled(s, pr) && IsEvictStage(pr.st) && !pr.st.LMeasure? && !pr.st.LList?
    ensures KeepsTrack(pr, EvictStep(s, pr))
  {
    match pr.st
    case LOpen => ChooseTracks(s, p, pr);
    case LLock => ChooseTracks(s, p, pr);
    case LStat =>
    case LStale =>
    case LCompare =>
    case LSubtract =>
    case LRelease => ReleaseTracks(s, p, pr);
    case LAbort =>
  }

  lemma RmdirTracks(s: Cache, p: Pid, pr: Proc)
    requires WalkInv(s, p, pr) && RunEnabled(s, pr) && pr.st.RDir?
    ensures KeepsTrack(pr, RemoveStep(s, pr))
  {
  }

  lemma RemoveTracks(s: Cache, p: Pid, pr: Proc)
    requires WalkInv(s, p, pr) && RunEnabled(s, pr) && IsRemoveStage(pr.st)
    ensures KeepsTrack(pr, RemoveStep(s, pr))
  {
    match pr.st
    case RInfo =>
    case RScan =>
    case RData =>
    case RLock =>
    case RDir => RmdirTracks(s, p, pr);
  }

  lemma LoadTracks(s: Cache, p: Pid, pr: Proc)
    requires WalkInv(s, p, pr) && RunEnabled(s, pr) && IsLoadStage(pr.st)
    ensures KeepsTrack(pr, LoadStep(s, pr))
  {
    match pr.st
    case DOpen =>
    case DLock =>
    case DStat =>
    case DStale =>
    case DHold =>
    case _ =>
  }

  // Committed data stays whole, except under a remover or where one died.
  lemma KeepsData(s: Cache, p: Pid, pr: Proc, e: Effect, x: Id)
    requires NamesInv(s) && OpsOk(s, p, e) && DataOk(s, p, pr, e)
    requires forall y :: Mine(s, y, p) ==> p in s.procs && s.procs[p] == pr
    requires x in s.commits && x in s.dirs
    requires s.dirs[x].lock ==>
      Intact(s, x) || x in s.broken || (x in s.writer && s.writer[x] in s.procs && Tearing(s.procs[s.writer[x]], x))
    ensures var s' := Apply(s, p, e);
      x in s'.dirs && (s'.dirs[x].lock ==>
        || Intact(s', x) || x in s'.broken
        || (x in s'.writer && s'.writer[x] in s'.procs && Tearing(s'.procs[s'.writer[x]], x)))
  {
    var s' := Apply(s, p, e);
    if e.dir.Write? && e.dir.x == x {
      assert Mine(s, x, p);
    } else {
      assert s'.dirs[x] == s.dirs[x] && s'.commits[x] == s.commits[x];
      if x in s.writer && s.writer[x] in s.procs && Tearing(s.procs[s.writer[x]], x) {
        if s.writer[x] == p {
          assert Mine(s, x, p) && Tearing(pr, pr.w.e);
        } else {
          assert s'.writer[x] == s.writer[x];
        }
      }
    }
  }

  lemma DataStep(s: Cache, p: Pid, pr: Proc, e: Effect)
    requires NamesInv(s) && DataInv(s) && OpsOk(s, p, e) && DataOk(s, p, pr, e)
    requires forall y :: Mine(s, y, p) ==> p in s.procs && s.procs[p] == pr
    ensures DataInv(Apply(s, p, e))
  {
    var s' := Apply(s, p, e);
    forall k | Named(k) in s'.names
      ensures var x := s'.names[Named(k)];
        x in s'.dirs && (s'.dirs[x].lock ==>
          || Intact(s', x) || x in s'.broken
          || (x in s'.writer && s'.writer[x] in s'.procs && Tearing(s'.procs[s'.writer[x]], x)))
    {
      var x := s'.names[Named(k)];
      if e.name.Move? && k == e.name.key {
        assert Intact(s', x);
      } else {
        assert Named(k) in s.names && s.names[Named(k)] == x && x in s.commits && x in s.dirs;
        KeepsData(s, p, pr, e, x);
      }
    }
  }

  // ------------------------------------------------------------ putting it together

  // Everything a step has to meet.
  ghost predicate Good(s: Cache, p: Pid, pr: Proc, e: Effect) {
    OpsOk(s, p, e) && DataOk(s, p, pr, e) && ReturnOk(s, p, e) && KeepsTrack(pr, e) && StageOk(s, p, e)
  }

  lemma StoreGood(s: Cache, p: Pid, pr: Proc)
    requires Local(s, p) && pr == s.procs[p] && RunEnabled(s, pr) && IsStoreStage(pr.st) && !pr.st.SFill?
    ensures Good(s, p, pr, StoreStep(s, pr))
  {
    StoreOk(s, p);
    StoreTracks(s, p, pr);
    match pr.st
    case SMkdir => FromSMkdir(s, p, pr);
    case SLink => FromSLink(s, p, pr);
    case SMkdata => FromSMkdata(s, p, pr);
    case SFilled => FromSFilled(s, p, pr);
    case SRetry => FromSRetry(s, p, pr);
    case SAccounted => FromSAccounted(s, p, pr);
    case SInfo => FromSInfo(s, p, pr);
    case SCollided => FromSCollided(s, p, pr);
    case SDeaccount => FromSDeaccount(s, p, pr);
    case SUnlock => FromSUnlock(s, p, pr);
  }

  lemma EvictGood(s: Cache, p: Pid, pr: Proc)
    requires Local(s, p) && pr == s.procs[p] && RunEnabled(s, pr) && IsEvictStage(pr.st) && !pr.st.LList?
    requires !pr.st.LMeasure?
    ensures Good(s, p, pr, EvictStep(s, pr))
  {
    EvictOk(s, p);
    EvictTracks(s, p, pr);
    match pr.st
    case LOpen => FromLOpen(s, p, pr);
    case LLock => FromLLock(s, p, pr);
    case LStat => FromLStat(s, p, pr);
    case LStale => FromLStale(s, p, pr);
    case LCompare => FromLCompare(s, p, pr);
    case LSubtract => FromLSubtract(s, p, pr);
    case LRelease => FromLRelease(s, p, pr);
    case LAbort => FromLAbort(s, p, pr);
  }

  lemma RemoveGood(s: Cache, p: Pid, pr: Proc)
    requires Local(s, p) && pr == s.procs[p] && RunEnabled(s, pr) && IsRemoveStage(pr.st)
    ensures Good(s, p, pr, RemoveStep(s, pr))
  {
    RemoveOk(s, p);
    RemoveTracks(s, p, pr);
    match pr.st
    case RInfo => FromRInfo(s, p, pr);
    case RScan => FromRScan(s, p, pr);
    case RData => FromRData(s, p, pr);
    case RLock => FromRLock(s, p, pr);
    case RDir => FromRDir(s, p, pr);
  }

  lemma LoadGood(s: Cache, p: Pid, pr: Proc)
    requires Local(s, p) && pr == s.procs[p] && RunEnabled(s, pr) && IsLoadStage(pr.st) && !pr.st.DTouch?
    ensures Good(s, p, pr, LoadStep(s, pr))
  {
    LoadOk(s, p);
    LoadTracks(s, p, pr);
    match pr.st
    case DOpen => FromDOpen(s, p, pr);
    case DLock => FromDLock(s, p, pr);
    case DStat => FromDStat(s, p, pr);
    case DStale => FromDStale(s, p, pr);
    case DHold => FromDHold(s, p, pr);
  }

  lemma FilledOk(s: Cache, p: Pid, pr: Proc, val: int, size: nat)
    requires Local(s, p) && pr == s.procs[p] && pr.st.SFill?
    ensures var e := EffectOf(s, pr, Filled(val, size)); EffectOk(s, p, pr, e) && KeepsTrack(pr, e)
  {
  }

  lemma FilledGood(s: Cache, p: Pid, pr: Proc, val: int, size: nat)
    requires Local(s, p) && pr == s.procs[p] && pr.st.SFill?
    ensures Good(s, p, pr, EffectOf(s, pr, Filled(val, size)))
  {
    FilledOk(s, p, pr, val, size);
    RewrittenFits(s, p, pr, EffectOf(s, pr, Filled(val, size)));
  }

  lemma ClockGood(s: Cache, p: Pid, pr: Proc, now: nat)
    requires Local(s, p) && pr == s.procs[p] && pr.st.DTouch?
    ensures Good(s, p, pr, EffectOf(s, pr, Clock(now)))
  {
  }

  lemma CrashGood(s: Cache, p: Pid, pr: Proc)
    requires Local(s, p) && pr == s.procs[p]
    ensures Good(s, p, pr, EffectOf(s, pr, Crash))
  {
  }

  // A step after which nothing has changed but the process.
  lemma QuietGood(s: Cache, p: Pid, pr: Proc, pr': Proc)
    requires Fits(s, p, pr') && Storing(pr.st) && Storing(pr'.st) && pr'.own == pr.own && !Tearing(pr, pr.w.e)
    requires Walking(pr) ==> Walking(pr') && pr'.w.e == pr.w.e
    ensures Good(s, p, pr, Quiet(s, pr'))
  {
    StillFits(s, p, Quiet(s, pr'));
  }

  // The whole entry weighs at least what its `object.info` says.
  lemma MeasuredFits(s: Cache, p: Pid, pr: Proc, overhead: nat)
    requires Local(s, p) && pr == s.procs[p] && pr.st.LMeasure?
    ensures Fits(s, p, EffectOf(s, pr, Measured(overhead)).proc.value)
  {
  }

  lemma ListingGood(s: Cache, p: Pid, pr: Proc, list: seq<Candidate>)
    requires Local(s, p) && pr == s.procs[p] && EventEnabled(s, pr, Listing(list))
    ensures Good(s, p, pr, EffectOf(s, pr, Listing(list)))
  {
    var pr' := pr.(w := pr.w.(freed := 0));
    NextFits(s, p, pr', list);
    QuietGood(s, p, pr, NextCandidate(pr', list));
  }

  lemma RaiseGood(s: Cache, p: Pid, pr: Proc)
    requires Local(s, p) && pr == s.procs[p] && EventEnabled(s, pr, Raise)
    ensures Good(s, p, pr, EffectOf(s, pr, Raise))
  {
    CleanupFits(s, p, pr);
    QuietGood(s, p, pr, Cleanup(pr));
  }

  lemma MeasuredGood(s: Cache, p: Pid, pr: Proc, overhead: nat)
    requires Local(s, p) && pr == s.procs[p] && EventEnabled(s, pr, Measured(overhead))
    ensures Good(s, p, pr, EffectOf(s, pr, Measured(overhead)))
  {
    MeasuredFits(s, p, pr, overhead);
    QuietGood(s, p, pr, EffectOf(s, pr, Measured(overhead)).proc.value);
  }

  lemma EventGood(s: Cache, p: Pid, pr: Proc, ev: Event)
    requires Local(s, p) && pr == s.procs[p] && !pr.st.Dead? && EventEnabled(s, pr, ev) && !ev.Store? && !ev.Load?
    ensures Good(s, p, pr, EffectOf(s, pr, ev))
  {
    match ev
    case Filled(val, size) => FilledGood(s, p, pr, val, size);
    case Clock(now) => ClockGood(s, p, pr, now);
    case Crash => CrashGood(s, p, pr);
    case Run =>
      if IsRemoveStage(pr.st) {
        RemoveGood(s, p, pr);
      } else if IsLoadStage(pr.st) {
        LoadGood(s, p, pr);
      } else if IsEvictStage(pr.st) {
        EvictGood(s, p, pr);
      } else {
        StoreGood(s, p, pr);
      }
    case Raise => RaiseGood(s, p, pr);
    case Listing(list) => ListingGood(s, p, pr, list);
    case Measured(overhead) => MeasuredGood(s, p, pr, overhead);
  }

  lemma StoreStarts(s: Cache, p: Pid, key: string)
    requires NamesInv(s) && LocksInv(s) && p !in s.procs
    ensures StageOk(s, p, Start(s, Store(key)))
  {
  }

  lemma StartGood(s: Cache, p: Pid, ev: Event)
    requires NamesInv(s) && LocksInv(s) && p !in s.procs && (ev.Store? || ev.Load?)
    ensures var e := Start(s, ev);
      OpsOk(s, p, e) && DataOk(s, p, Idle(), e) && ReturnOk(s, p, e) && StageOk(s, p, e) && e.proc.Some?
      && HoldsInv(Apply(s, p, e), p, e.proc.value)
  {
    var e := Start(s, ev);
    LocksAfter(s, p, e);
    if ev.Load? {
      StillFits(s, p, e);
    } else {
      StoreStarts(s, p, ev.key);
    }
  }

  // The effect of an enabled event.
  ghost function EffectAt(s: Cache, p: Pid, ev: Event): Effect
    requires Enabled(s, p, ev)
  {
    if p in s.procs then EffectOf(s, s.procs[p], ev) else Start(s, ev)
  }

  ghost function ProcAt(s: Cache, p: Pid): Proc {
    if p in s.procs then s.procs[p] else Idle()
  }

  lemma StepGood(s: Cache, p: Pid, ev: Event)
    requires Inv(s) && Enabled(s, p, ev)
    ensures var e := EffectAt(s, p, ev); var s' := Apply(s, p, e);
      && OpsOk(s, p, e) && DataOk(s, p, ProcAt(s, p), e) && ReturnOk(s, p, e)
      && (e.proc.Some? ==> Fits(s', p, e.proc.value) && HoldsInv(s', p, e.proc.value))
  {
    assert ProcInv(s, p);
    if p in s.procs {
      EventGood(s, p, s.procs[p], ev);
      var e := EffectAt(s, p, ev);
      if e.proc.Some? {
        HoldsStep(s, p, e);
      }
    } else {
      StartGood(s, p, ev);
    }
  }

  lemma FairStep(s: Cache, p: Pid, e: Effect)
    requires NamesInv(s) && LocksInv(s) && OpsOk(s, p, e)
    ensures Fair(s, Apply(s, p, e), p)
  {
    FairDirsAndLocks(s, p, e);
    FairNames(s, p, e);
  }

  lemma SharedStep(s: Cache, p: Pid, e: Effect)
    requires SharedInv(s) && OpsOk(s, p, e) && DataOk(s, p, ProcAt(s, p), e) && ReturnOk(s, p, e)
    ensures SharedInv(Apply(s, p, e))
  {
    NamesStep(s, p, e);
    DirsStep(s, p, e);
    LocksStep(s, p, e);
    DataStep(s, p, ProcAt(s, p), e);
  }

  lemma StepInv(s: Cache, p: Pid, ev: Event)
    requires Inv(s) && Enabled(s, p, ev)
    ensures Inv(Next(s, p, ev)) && Fair(s, Next(s, p, ev), p)
  {
    var e := EffectAt(s, p, ev);
    var s' := Apply(s, p, e);
    StepGood(s, p, ev);
    SharedStep(s, p, e);
    FairStep(s, p, e);
    forall q ensures ProcInv(s', q) {
      if q != p {
        assert ProcInv(s, q);
        ProcOther(s, p, s', q);
      }
    }
  }

  lemma NextInv(s: Cache, s': Cache)
    requires Inv(s) && Step(s, s')
    ensures Inv(s')
  {
    var p: Pid, ev :| Enabled(s, p, ev) && s' == Next(s, p, ev);
    StepInv(s, p, ev);
  }

  lemma {:induction false} RunInv(run: seq<Cache>, n: nat)
    requires IsRun(run) && n < |run|
    ensures Inv(run[n])
  {
    if n > 0 {
      RunInv(run, n - 1);
      assert Step(run[n - 1], run[n]);
      NextInv(run[n - 1], run[n]);
    }
  }

  // ------------------------------------------------------------- what it is for

  // What one deletion does, up to the lock file and after it.
  lemma DeletionShape(s: Cache, p: Pid, pr: Proc)
    requires WalkInv(s, p, pr) && RunEnabled(s, pr) && Removing(pr.st)
    ensures var e := RemoveStep(s, pr);
      && (e.dir == NoDir || (e.dir.Write? && e.dir.x == pr.w.e))
      && (!pr.st.RDir? ==> pr.w.name in s.names && s.names[pr.w.name] == pr.w.e && e.name == NoName)
  {
    match pr.st
    case RInfo =>
    case RScan =>
    case RData =>
    case RLock =>
    case RDir =>
  }

  lemma RmdirShape(s: Cache, pr: Proc)
    requires RunEnabled(s, pr) && pr.st.RDir?
    ensures var e := RemoveStep(s, pr);
      && e.dir == NoDir
      && (pr.w.name in s.names ==> e.name == if s.dirs[s.names[pr.w.name]] == EMPTY then Unbind(pr.w.name) else NoName)
      && (pr.w.name in s.names && s.dirs[s.names[pr.w.name]] != EMPTY && pr.w.evict ==>
            e.proc.Some? && e.proc.value.st.LAbort?)
  {
  }

  /** The deletions by path of `_rm_r_object` never touch another entry: up to the
      lock file the name still leads to the entry being removed; after that only an
      empty directory can go, and when a newer entry has taken the name the rmdir
      fails and leaves everything as it is. */
  lemma RemovalStaysOnEntry(run: seq<Cache>, n: nat, p: Pid)
    requires IsRun(run) && n < |run| && p in run[n].procs && Removing(run[n].procs[p].st) && Enabled(run[n], p, Run)
    ensures var s := run[n]; var s' := Next(s, p, Run); var pr := s.procs[p];
      && (!pr.st.RDir? ==> pr.w.name in s.names && s.names[pr.w.name] == pr.w.e && s'.names == s.names)
      && (forall x :: x in s.dirs && x != pr.w.e ==> x in s'.dirs && s'.dirs[x] == s.dirs[x])
      && (pr.st.RDir? ==> s'.dirs == s.dirs)
      && (pr.st.RDir? && pr.w.name in s.names ==>
            s'.names == (if s.dirs[s.names[pr.w.name]] == EMPTY then DropName(s.names, pr.w.name) else s.names))
      && (pr.st.RDir? && pr.w.name in s.names && s.dirs[s.names[pr.w.name]] != EMPTY && pr.w.evict ==>
            s'.procs[p].st.LAbort?)
  {
    RunInv(run, n);
    var s, pr := run[n], run[n].procs[p];
    assert ProcInv(s, p) && Next(s, p, Run) == Apply(s, p, RemoveStep(s, pr));
    DeletionShape(s, p, pr);
    if pr.st.RDir? {
      RmdirShape(s, pr);
    }
  }

  /** A caller's name changes hands, or goes away, only when the entry it led to is
      an empty directory; a store never replaces an entry with anything in it. */
  lemma NameChangesOnlyWhenEmpty(run: seq<Cache>, n: nat, k: string)
    requires IsRun(run) && n + 1 < |run| && Named(k) in run[n].names
    requires Named(k) !in run[n + 1].names || run[n + 1].names[Named(k)] != run[n].names[Named(k)]
    ensures run[n].names[Named(k)] in run[n].dirs && run[n].dirs[run[n].names[Named(k)]] == EMPTY
  {
    RunInv(run, n);
    var s := run[n];
    assert Step(run[n], run[n + 1]);
    var p, ev :| Enabled(s, p, ev) && run[n + 1] == Next(s, p, ev);
    StepGood(s, p, ev);
    assert NameOk(s, p, EffectAt(s, p, ev).name);
  }

  // A store about to rename, alone with its finished entry.
  ghost predicate Committing(s: Cache, p: Pid, x: Id, c: Commit) {
    && p in s.procs && s.procs[p].st.SInfo? && s.procs[p].own == Own(c.key, x, c.val, c.size)
    && Mine(s, x, p) && x in s.dirs && s.dirs[x] == Dir(true, Some(c.size), Complete(c.val, c.size))
  }

  /** What a store commits is exactly what its caller filled in, under the name the
      caller gave, while nobody else can open it. */
  lemma CommitIsWhatWasFilled(run: seq<Cache>, n: nat, x: Id) returns (p: Pid)
    requires IsRun(run) && n + 1 < |run| && x in run[n + 1].commits && x !in run[n].commits
    ensures Committing(run[n], p, x, run[n + 1].commits[x])
  {
    RunInv(run, n);
    assert Step(run[n], run[n + 1]);
    p := Committer(run[n], run[n + 1], x);
  }

  lemma Committer(s: Cache, s': Cache, x: Id) returns (p: Pid)
    requires Inv(s) && Step(s, s') && x in s'.commits && x !in s.commits
    ensures Committing(s, p, x, s'.commits[x])
  {
    var q: Pid, ev :| Enabled(s, q, ev) && s' == Next(s, q, ev);
    p := q;
    assert EffectAt(s, p, ev).name.Move?;
    MoveByStore(s, p, ev);
    assert ProcInv(s, p);
  }

  lemma MoveByStore(s: Cache, p: Pid, ev: Event)
    requires Enabled(s, p, ev) && EffectAt(s, p, ev).name.Move?
    ensures ev.Run? && p in s.procs && s.procs[p].st.SInfo?
    ensures var o := s.procs[p].own; EffectAt(s, p, ev).name == Move(o.d, o.key, Commit(o.key, o.val, o.n))
  {
    if ev.Run? {
      var pr := s.procs[p];
      if IsRemoveStage(pr.st) {
        match pr.st
        case RInfo =>
        case RScan =>
        case RData =>
        case RLock =>
        case RDir =>
      } else if !IsLoadStage(pr.st) && IsEvictStage(pr.st) {
        match pr.st
        case LOpen =>
        case LLock =>
        case LStat =>
        case LStale =>
        case LCompare =>
        case LSubtract =>
        case LRelease =>
        case _ =>
      }
    }
  }
}
