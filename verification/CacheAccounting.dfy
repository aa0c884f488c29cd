/**
  What `cache.size` means (osbuild/util/fscache.py:741-779, 943-1003, 1100-1161).

  A store accounts the weight of its data before it records that weight in
  `object.info`; a removal deletes `object.info` before it subtracts the weight of
  the whole entry.  So the size file never promises less room than there is: it is
  at most what the `object.info` files record, plus what is in flight, plus what
  calls cut short left behind -- and exactly that until the first eviction.
 */
module CacheAccounting {
  import opened Wrappers
  import opened CacheEntries
  import opened CacheSafety
  import AtomicFile

  ghost function Recorded(d: Dir): nat {
    if d.info.Some? then d.info.value else 0
  }

  // The sum of all `object.info` sizes of directories numbered below `k`.
  ghost function Committed(dirs: map<Id, Dir>, k: nat): nat {
    if k == 0 then 0 else Committed(dirs, k - 1) + (if k - 1 in dirs then Recorded(dirs[k - 1]) else 0)
  }

  // The sum in flight over processes numbered below `k`.
  ghost function Flight(procs: map<Pid, Proc>, k: nat): nat {
    if k == 0 then 0 else Flight(procs, k - 1) + (if k - 1 in procs then InFlight(procs[k - 1]) else 0)
  }

  ghost predicate Below(s: Cache, k: nat) {
    forall p :: p in s.procs ==> p < k
  }

  ghost function Explained(s: Cache, k: nat): nat {
    Committed(s.dirs, s.free) + Flight(s.procs, k) + s.lost
  }

  ghost predicate Accounted(s: Cache, k: nat) {
    && (if s.evicted then s.size <= Explained(s, k) else s.size == Explained(s, k))
    && 0 <= s.size && (s.limit >= 0 ==> s.size <= s.limit)
  }

  // ------------------------------------------------------------------------ sums

  lemma {:induction false} CommittedUpdate(dirs: map<Id, Dir>, x: Id, d: Dir, k: nat)
    requires x in dirs
    ensures Committed(dirs[x := d], k) == Committed(dirs, k) + (if x < k then Recorded(d) - Recorded(dirs[x]) else 0)
  {
    if k > 0 {
      CommittedUpdate(dirs, x, d, k - 1);
    }
  }

  lemma {:induction false} CommittedFresh(dirs: map<Id, Dir>, x: Id, k: nat)
    requires x !in dirs
    ensures Committed(dirs[x := EMPTY], k) == Committed(dirs, k)
  {
    if k > 0 {
      CommittedFresh(dirs, x, k - 1);
    }
  }

  ghost function FlightOf(procs: map<Pid, Proc>, p: Pid): nat {
    if p in procs then InFlight(procs[p]) else 0
  }

  lemma {:induction false} FlightChange(procs: map<Pid, Proc>, procs': map<Pid, Proc>, p: Pid, k: nat)
    requires forall q :: q != p ==> (q in procs <==> q in procs') && (q in procs ==> procs'[q] == procs[q])
    ensures Flight(procs', k) == Flight(procs, k) + (if p < k then FlightOf(procs', p) - FlightOf(procs, p) else 0)
  {
    if k > 0 {
      FlightChange(procs, procs', p, k - 1);
    }
  }

  lemma {:induction false} FlightAtLeast(procs: map<Pid, Proc>, p: Pid, k: nat)
    requires p < k
    ensures FlightOf(procs, p) <= Flight(procs, k)
  {
    if p < k - 1 {
      FlightAtLeast(procs, p, k - 1);
    }
  }

  lemma {:induction false} FlightNone(procs: map<Pid, Proc>, k: nat)
    requires forall p :: p in procs ==> InFlight(procs[p]) == 0
    ensures Flight(procs, k) == 0
  {
    if k > 0 {
      FlightNone(procs, k - 1);
    }
  }

  // --------------------------------------------------------------- single effects

  ghost function DirDelta(s: Cache, e: Effect): int {
    if e.dir.Write? && e.dir.x in s.dirs then Recorded(e.dir.dir) - Recorded(s.dirs[e.dir.x]) else 0
  }

  ghost function FlightDelta(pr: Proc, e: Effect): int {
    (if e.proc.Some? then InFlight(e.proc.value) else 0) - InFlight(pr)
  }

  // The size changes by exactly what becomes recorded, in flight or lost; an
  // eviction may take off more, and never leaves a negative size.
  ghost predicate Balanced(s: Cache, pr: Proc, e: Effect) {
    var delta := DirDelta(s, e) + FlightDelta(pr, e) + (e.lost - s.lost);
    && s.lost <= e.lost
    && (s.evicted ==> e.evicted)
    && (s.size <= s.limit || s.limit < 0 ==> e.size <= s.limit || s.limit < 0)
    && 0 <= e.size
    && (if e.evicted then e.size <= s.size + delta || e.size == 0 else e.size == s.size + delta)
  }

  lemma RemoveBalanced(s: Cache, p: Pid, pr: Proc)
    requires WalkInv(s, p, pr) && RunEnabled(s, pr) && IsRemoveStage(pr.st) && 0 <= s.size
    ensures Balanced(s, pr, RemoveStep(s, pr))
  {
    match pr.st
    case RInfo =>
    case RScan =>
    case RData =>
    case RLock =>
    case RDir =>
  }

  lemma EvictBalanced(s: Cache, p: Pid, pr: Proc)
    requires WalkInv(s, p, pr) && RunEnabled(s, pr) && IsEvictStage(pr.st) && 0 <= s.size
    requires (s.size <= s.limit || s.limit < 0)
    ensures Balanced(s, pr, EvictStep(s, pr))
  {
    match pr.st
    case LOpen =>
    case LLock =>
    case LStat =>
    case LStale =>
    case LCompare =>
    case LSubtract =>
    case LRelease =>
    case LAbort =>
    case _ =>
  }

  lemma StoreBalanced(s: Cache, p: Pid, pr: Proc)
    requires StoreInv(s, p, pr) && RunEnabled(s, pr) && IsStoreStage(pr.st)
    requires 0 <= s.size && (s.size <= s.limit || s.limit < 0) && (!s.evicted ==> InFlight(pr) <= s.size)
    ensures Balanced(s, pr, StoreStep(s, pr))
  {
    match pr.st
    case SMkdir =>
    case SLink =>
    case SMkdata =>
    case SFilled =>
    case SRetry =>
    case SAccounted =>
    case SInfo =>
    case SCollided =>
    case SDeaccount =>
    case SUnlock =>
    case _ =>
  }

  lemma RunBalanced(s: Cache, p: Pid, pr: Proc)
    requires Fits(s, p, pr) && !pr.st.Dead? && EventEnabled(s, pr, Run)
    requires 0 <= s.size && (s.size <= s.limit || s.limit < 0) && (!s.evicted ==> InFlight(pr) <= s.size)
    ensures Balanced(s, pr, EffectOf(s, pr, Run))
  {
    if IsRemoveStage(pr.st) {
      RemoveBalanced(s, p, pr);
    } else if IsLoadStage(pr.st) {
    } else if IsEvictStage(pr.st) {
      EvictBalanced(s, p, pr);
    } else {
      StoreBalanced(s, p, pr);
    }
  }

  lemma EventBalanced(s: Cache, p: Pid, pr: Proc, ev: Event)
    requires Fits(s, p, pr) && !pr.st.Dead? && EventEnabled(s, pr, ev) && !ev.Store? && !ev.Load?
    requires 0 <= s.size && (s.size <= s.limit || s.limit < 0) && (!s.evicted ==> InFlight(pr) <= s.size)
    ensures Balanced(s, pr, EffectOf(s, pr, ev))
  {
    match ev
    case Run => RunBalanced(s, p, pr);
    case Filled(_, _) =>
    case Raise =>
    case Listing(_) =>
    case Measured(_) =>
    case Clock(_) =>
    case Crash =>
  }

  // ------------------------------------------------------------------- every step

  lemma CommittedStep(s: Cache, p: Pid, e: Effect)
    requires NumbersInv(s) && DirOk(s, p, e.dir)
    ensures var s' := Apply(s, p, e); Committed(s'.dirs, s'.free) == Committed(s.dirs, s.free) + DirDelta(s, e)
  {
    match e.dir
    case Write(x, dir) => CommittedUpdate(s.dirs, x, dir, s.free);
    case Make => CommittedFresh(s.dirs, s.free, s.free + 1);
    case _ =>
  }

  lemma FlightStep(s: Cache, p: Pid, e: Effect, k: nat)
    requires p < k
    ensures Flight(Apply(s, p, e).procs, k) == Flight(s.procs, k) + FlightDelta(ProcAt(s, p), e)
  {
    FlightChange(s.procs, Apply(s, p, e).procs, p, k);
  }

  lemma AccountedStep(s: Cache, p: Pid, ev: Event, k: nat)
    requires Inv(s) && Enabled(s, p, ev) && Accounted(s, k) && p < k
    ensures Accounted(Next(s, p, ev), k)
  {
    var e := EffectAt(s, p, ev);
    StepGood(s, p, ev);
    CommittedStep(s, p, e);
    FlightStep(s, p, e, k);
    if p in s.procs {
      FlightAtLeast(s.procs, p, k);
      assert ProcInv(s, p);
      EventBalanced(s, p, s.procs[p], ev);
    }
  }

  lemma {:induction false} FlightExtends(procs: map<Pid, Proc>, k: nat, k': nat)
    requires k <= k' && forall p :: p in procs ==> p < k
    ensures Flight(procs, k') == Flight(procs, k)
  {
    if k < k' {
      FlightExtends(procs, k, k' - 1);
    }
  }

  lemma BoundBefore(s: Cache, s': Cache, k: nat) returns (k': nat)
    requires Inv(s) && Step(s, s') && Below(s', k)
    ensures Below(s, k') && k <= k' && s'.limit == s.limit
  {
    var p: Pid, ev :| Enabled(s, p, ev) && s' == Next(s, p, ev);
    k' := if p < k then k else p + 1;
    StepInv(s, p, ev);
    forall q | q in s.procs ensures q < k' {
      assert q != p ==> q in s'.procs;
    }
  }

  lemma AccountedNext(s: Cache, s': Cache, k: nat, k': nat)
    requires Inv(s) && Step(s, s') && Below(s, k') && Below(s', k) && k <= k' && Accounted(s, k')
    ensures Accounted(s', k)
  {
    var p: Pid, ev :| Enabled(s, p, ev) && s' == Next(s, p, ev);
    assert p !in s.procs ==> p in s'.procs;
    AccountedStep(s, p, ev, k');
    FlightExtends(s'.procs, k, k');
  }

  /** In every run, with crashes anywhere: the size file holds at most what the
      `object.info` files record, plus what is in flight, plus what calls cut short
      left behind; exactly that until the first eviction; never below zero nor
      above the limit. */
  lemma {:induction false} SizeIsAccounted(run: seq<Cache>, n: nat, k: nat)
    requires IsRun(run) && n < |run| && Below(run[n], k)
    ensures Accounted(run[n], k) && run[n].limit == run[0].limit
  {
    if n == 0 {
      FlightNone(run[0].procs, k);
    } else {
      RunInv(run, n - 1);
      assert Step(run[n - 1], run[n]);
      var k' := BoundBefore(run[n - 1], run[n], k);
      SizeIsAccounted(run, n - 1, k');
      AccountedNext(run[n - 1], run[n], k, k');
    }
  }

  /** Giving room back never fails: the update of an eviction, or of a store that
      found its name taken, is never refused. */
  lemma SubtractingSucceeds(run: seq<Cache>, n: nat, k: nat, amount: nat)
    requires IsRun(run) && n < |run| && Below(run[n], k)
    ensures AtomicFile.Resized(run[n].size, -(amount as int), run[n].limit).Some?
    ensures AtomicFile.Resized(run[n].size, -(amount as int), run[n].limit).value ==
      (if run[n].size < amount then 0 else run[n].size - amount)
  {
    SizeIsAccounted(run, n, k);
  }

  // ------------------------------------------------------------------ quiet runs

  // Nobody has died and nobody has been refused room.
  ghost predicate Roomy(s: Cache) {
    forall p :: p in s.procs ==> !s.procs[p].st.Dead? && !s.procs[p].st.LList?
  }

  ghost predicate Calm(pr: Proc) {
    !IsEvictStage(pr.st) && !pr.w.evict
  }

  ghost predicate StaysCalm(s: Cache, e: Effect) {
    && e.lost == s.lost && e.evicted == s.evicted
    && (e.proc.Some? ==> Calm(e.proc.value) || e.proc.value.st.LList?)
  }

  lemma CalmRemove(s: Cache, pr: Proc)
    requires Calm(pr) && RunEnabled(s, pr) && IsRemoveStage(pr.st)
    ensures StaysCalm(s, RemoveStep(s, pr))
  {
    match pr.st
    case RInfo =>
    case RScan =>
    case RData =>
    case RLock =>
    case RDir =>
  }

  lemma CalmStore(s: Cache, pr: Proc)
    requires Calm(pr) && RunEnabled(s, pr) && IsStoreStage(pr.st)
    ensures StaysCalm(s, StoreStep(s, pr))
  {
    match pr.st
    case SMkdir =>
    case SLink =>
    case SMkdata =>
    case SFilled =>
    case SRetry =>
    case SAccounted =>
    case SInfo =>
    case SCollided =>
    case SDeaccount =>
    case _ =>
  }

  lemma CalmStep(s: Cache, pr: Proc, ev: Event)
    requires Calm(pr) && !pr.st.Dead? && EventEnabled(s, pr, ev) && !ev.Store? && !ev.Load? && !ev.Crash?
    ensures StaysCalm(s, EffectOf(s, pr, ev))
  {
    if ev.Run? {
      if IsRemoveStage(pr.st) {
        CalmRemove(s, pr);
      } else if !IsLoadStage(pr.st) {
        CalmStore(s, pr);
      }
    }
  }

  ghost predicate CalmInv(s: Cache) {
    s.lost == 0 && !s.evicted && forall p :: p in s.procs ==> Calm(s.procs[p])
  }

  lemma CalmNext(s: Cache, s': Cache)
    requires CalmInv(s) && Roomy(s) && Roomy(s') && Step(s, s')
    ensures CalmInv(s')
  {
    var p: Pid, ev :| Enabled(s, p, ev) && s' == Next(s, p, ev);
    if p in s.procs {
      var e := EffectOf(s, s.procs[p], ev);
      assert e.proc.Some? ==> s'.procs[p] == e.proc.value;
      assert !ev.Crash?;
      CalmStep(s, s.procs[p], ev);
    }
  }

  lemma {:induction false} CalmRun(run: seq<Cache>, n: nat)
    requires IsRun(run) && n < |run| && forall i :: 0 <= i <= n ==> Roomy(run[i])
    ensures CalmInv(run[n])
  {
    if n > 0 {
      CalmRun(run, n - 1);
      assert Step(run[n - 1], run[n]);
      CalmNext(run[n - 1], run[n]);
    }
  }

  /** Without crashes, and as long as nobody is refused room, the size file at rest
      is exactly the sum of what the `object.info` files record. */
  lemma SizeAtRest(run: seq<Cache>, n: nat, k: nat)
    requires IsRun(run) && n < |run| && forall i :: 0 <= i <= n ==> Roomy(run[i])
    requires forall p :: p in run[n].procs ==> InFlight(run[n].procs[p]) == 0
    requires Below(run[n], k)
    ensures run[n].size == Committed(run[n].dirs, run[n].free)
  {
    CalmRun(run, n);
    SizeIsAccounted(run, n, k);
    FlightNone(run[n].procs, k);
  }
}
