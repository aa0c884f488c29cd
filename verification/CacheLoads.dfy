/**
  What `load` promises (osbuild/util/fscache.py:1015-1067): an entry stays as it is while
  it is held open, and it is the complete data one store committed exactly when no
  remover of it died half-way.
 */
module CacheLoads {
  import opened Wrappers
  import opened CacheEntries
  import opened CacheSafety

  // ------------------------------------------------------------ a held entry stays

  lemma HoldEnds(s: Cache, p: Pid, ev: Event)
    requires Enabled(s, p, ev) && p in s.procs && s.procs[p].st.DHold?
    ensures var s' := Next(s, p, ev); p !in s'.procs || s'.procs[p].st.Dead?
  {
  }

  lemma HeldFromOthers(s: Cache, s': Cache, q: Pid, p: Pid)
    requires Fair(s, s', q) && LocksInv(s) && ProcInv(s, p) && p != q && p in s.procs && s.procs[p].st.DHold?
    ensures var x := s.procs[p].w.e; var name := s.procs[p].w.name;
      && name in s.names && s.names[name] == x && name in s'.names && s'.names[name] == x
      && x in s.dirs && x in s'.dirs && s'.dirs[x] == s.dirs[x]
  {
    assert (s.procs[p].w.e, p) in s.readers;
  }

  /** While the entry is held open nobody renames, replaces or changes it. */
  lemma HeldEntryStays(run: seq<Cache>, n: nat, p: Pid)
    requires IsRun(run) && n + 1 < |run| && p in run[n].procs && run[n].procs[p].st.DHold?
    requires p in run[n + 1].procs && run[n + 1].procs[p].st.DHold?
    ensures SameEntry(run[n], run[n + 1], p)
  {
    RunInv(run, n);
    assert Step(run[n], run[n + 1]);
    HeldStep(run[n], run[n + 1], p);
  }

  lemma HeldStep(s: Cache, s': Cache, p: Pid)
    requires Inv(s) && Step(s, s') && p in s.procs && s.procs[p].st.DHold? && p in s'.procs && s'.procs[p].st.DHold?
    ensures SameEntry(s, s', p)
  {
    var q: Pid, ev :| Enabled(s, q, ev) && s' == Next(s, q, ev);
    if q == p {
      HoldEnds(s, p, ev);
    }
    StepInv(s, q, ev);
    assert ProcInv(s, p);
    HeldFromOthers(s, s', q, p);
  }

  ghost predicate HoldsFrom(run: seq<Cache>, i: nat, j: nat, p: Pid) {
    i <= j < |run| && forall m :: i <= m <= j ==> p in run[m].procs && run[m].procs[p].st.DHold?
  }

  // The name `p` loaded leads to the same directory with the same content.
  ghost predicate SameEntry(s: Cache, t: Cache, p: Pid) {
    && p in s.procs && p in t.procs && t.procs[p] == s.procs[p]
    && var name := Named(s.procs[p].own.key);
      && name in s.names && name in t.names && t.names[name] == s.names[name]
      && s.names[name] in s.dirs && s.names[name] in t.dirs && t.dirs[s.names[name]] == s.dirs[s.names[name]]
  }

  lemma SameEntryHere(s: Cache, p: Pid)
    requires Inv(s) && p in s.procs && s.procs[p].st.DHold?
    ensures SameEntry(s, s, p)
  {
    assert ProcInv(s, p);
  }

  lemma SameEntryOn(s: Cache, t: Cache, u: Cache, p: Pid)
    requires SameEntry(s, t, p) && SameEntry(t, u, p)
    ensures SameEntry(s, u, p)
  {
  }

  lemma {:induction false} SameEntryChain(run: seq<Cache>, i: nat, j: nat, p: Pid)
    requires i <= j < |run| && SameEntry(run[i], run[i], p)
    requires forall m :: i <= m < j ==> SameEntry(run[m], run[m + 1], p)
    ensures SameEntry(run[i], run[j], p)
  {
    if i < j {
      SameEntryChain(run, i, j - 1, p);
      assert SameEntry(run[j - 1], run[j - 1 + 1], p);
      SameEntryOn(run[i], run[j - 1], run[j], p);
    }
  }

  /** From the moment `load` hands out the entry until the caller lets go, however
      long that takes, the name leads to the same directory with the same content. */
  lemma HeldThroughout(run: seq<Cache>, i: nat, j: nat, p: Pid)
    requires IsRun(run) && HoldsFrom(run, i, j, p)
    ensures SameEntry(run[i], run[j], p)
  {
    HeldAtStart(run, i, p);
    forall m | i <= m < j ensures SameEntry(run[m], run[m + 1], p) {
      HeldEntryStays(run, m, p);
    }
    SameEntryChain(run, i, j, p);
  }

  lemma HeldAtStart(run: seq<Cache>, i: nat, p: Pid)
    requires IsRun(run) && i < |run| && p in run[i].procs && run[i].procs[p].st.DHold?
    ensures SameEntry(run[i], run[i], p)
  {
    RunInv(run, i);
    SameEntryHere(run[i], p);
  }

  // ----------------------------------------------------- an entry left broken is torn

  // A store still at work on the entry it made.
  ghost predicate Making(pr: Proc, x: Id) {
    Storing(pr.st) && pr.own.d == x
  }

  // Broken entries are incomplete, and so is one a remover has begun to delete; no
  // broken entry is still being made.
  ghost predicate TornInv(s: Cache) {
    && (forall x :: x in s.broken ==> x in s.dirs && !s.dirs[x].data.Complete?)
    && (forall p, x :: p in s.procs && Tearing(s.procs[p], x) ==> x in s.dirs && !s.dirs[x].data.Complete?)
    && (forall p, x :: p in s.procs && Making(s.procs[p], x) ==> x !in s.broken)
  }

  ghost predicate AddsNoData(s: Cache, e: Effect) {
    e.dir.Write? && e.dir.dir.data.Complete? ==> e.dir.x in s.dirs && s.dirs[e.dir.x].data.Complete?
  }

  lemma RemoveAddsNoData(s: Cache, pr: Proc)
    requires RunEnabled(s, pr) && IsRemoveStage(pr.st)
    ensures AddsNoData(s, RemoveStep(s, pr))
  {
  }

  lemma StoreAddsNoData(s: Cache, pr: Proc)
    requires RunEnabled(s, pr) && !IsRemoveStage(pr.st) && !IsLoadStage(pr.st) && !IsEvictStage(pr.st)
    ensures AddsNoData(s, StoreStep(s, pr))
  {
  }

  lemma OthersWriteNothing(s: Cache, pr: Proc)
    requires RunEnabled(s, pr)
    ensures IsLoadStage(pr.st) ==> LoadStep(s, pr).dir == NoDir
    ensures IsEvictStage(pr.st) ==> EvictStep(s, pr).dir == NoDir
  {
  }

  // A step completes data only in the entry its process is making.
  lemma WritesComplete(s: Cache, p: Pid, ev: Event)
    requires Enabled(s, p, ev) && EffectAt(s, p, ev).dir.Write? && EffectAt(s, p, ev).dir.dir.data.Complete?
    ensures var x := EffectAt(s, p, ev).dir.x;
      (x in s.dirs && s.dirs[x].data.Complete?) || (p in s.procs && Making(s.procs[p], x))
  {
    if ev.Run? {
      var pr := s.procs[p];
      OthersWriteNothing(s, pr);
      if IsRemoveStage(pr.st) {
        RemoveAddsNoData(s, pr);
      } else if !IsLoadStage(pr.st) && !IsEvictStage(pr.st) {
        StoreAddsNoData(s, pr);
      }
    }
  }

  lemma RemoveTears(s: Cache, p: Pid, pr: Proc, x: Id)
    requires WalkInv(s, p, pr) && RunEnabled(s, pr) && IsRemoveStage(pr.st)
    requires RemoveStep(s, pr).proc.Some? && Tearing(RemoveStep(s, pr).proc.value, x)
    ensures var e := RemoveStep(s, pr); x in s.dirs && e.dir.Write? && e.dir.x == x && !e.dir.dir.data.Complete?
  {
    match pr.st
    case RScan =>
    case RData =>
    case _ =>
  }

  ghost predicate TearsNothing(e: Effect) {
    e.proc.Some? ==> !e.proc.value.st.RData? && !e.proc.value.st.RLock?
  }

  lemma OthersTearNothing(s: Cache, pr: Proc)
    requires RunEnabled(s, pr) && !IsRemoveStage(pr.st) && !pr.st.SFill? && !pr.st.LList? && !pr.st.LMeasure?
    requires !pr.st.DTouch? && !pr.st.Dead?
    ensures if IsLoadStage(pr.st) then TearsNothing(LoadStep(s, pr))
            else if IsEvictStage(pr.st) then TearsNothing(EvictStep(s, pr))
            else TearsNothing(StoreStep(s, pr))
  {
  }

  // A step that leaves its process tearing an entry leaves the entry incomplete.
  lemma TearsIncomplete(s: Cache, p: Pid, ev: Event, x: Id)
    requires Enabled(s, p, ev) && (p in s.procs ==> WalkInv(s, p, s.procs[p]))
    requires EffectAt(s, p, ev).proc.Some? && Tearing(EffectAt(s, p, ev).proc.value, x)
    ensures var e := EffectAt(s, p, ev); x in s.dirs && e.dir.Write? && e.dir.x == x && !e.dir.dir.data.Complete?
  {
    if ev.Run? {
      if IsRemoveStage(s.procs[p].st) {
        RemoveTears(s, p, s.procs[p], x);
      } else {
        OthersTearNothing(s, s.procs[p]);
      }
    }
  }

  // A step makes no entry but the one its process made before, or a new one.
  lemma MakesOwn(s: Cache, p: Pid, ev: Event, x: Id)
    requires Enabled(s, p, ev) && EffectAt(s, p, ev).proc.Some? && Making(EffectAt(s, p, ev).proc.value, x)
    ensures (p in s.procs && Making(s.procs[p], x)) || (p !in s.procs && x == s.free)
  {
    if ev.Run? {
      var pr := s.procs[p];
      if IsRemoveStage(pr.st) {
        match pr.st
        case RDir =>
        case _ =>
      } else if IsLoadStage(pr.st) {
        match pr.st
        case DHold =>
        case _ =>
      } else if IsEvictStage(pr.st) {
        match pr.st
        case LRelease =>
        case _ =>
      } else {
        match pr.st
        case SFilled =>
        case SRetry =>
        case SInfo =>
        case SDeaccount =>
        case SUnlock =>
        case _ =>
      }
    }
  }

  lemma BrokeByCrash(s: Cache, p: Pid, ev: Event)
    requires Enabled(s, p, ev) && EffectAt(s, p, ev).broke != {}
    ensures ev.Crash? && p in s.procs && EffectAt(s, p, ev).broke == {s.procs[p].w.e}
    ensures s.procs[p].st.RData? || s.procs[p].st.RLock?
  {
    if ev.Run? {
      QuietRun(s, p);
    }
  }

  lemma QuietRun(s: Cache, p: Pid)
    requires Enabled(s, p, Run)
    ensures EffectAt(s, p, Run).broke == {}
  {
    var pr := s.procs[p];
    if IsRemoveStage(pr.st) {
      match pr.st
      case RInfo =>
      case RScan =>
      case RData =>
      case RLock =>
      case RDir =>
    } else if IsLoadStage(pr.st) {
      match pr.st
      case DOpen =>
      case DLock =>
      case DStat =>
      case DStale =>
      case _ =>
    } else if IsEvictStage(pr.st) {
      match pr.st
      case LOpen =>
      case LLock =>
      case LStat =>
      case LStale =>
      case LCompare =>
      case LSubtract =>
      case LRelease =>
      case _ =>
    } else {
      match pr.st
      case SFilled =>
      case SRetry =>
      case SInfo =>
      case SDeaccount =>
      case _ =>
    }
  }

  // Who is deleting an entry, or making it, holds its lock.
  lemma HoldsLock(s: Cache, q: Pid, x: Id)
    requires ProcInv(s, q) && q in s.procs && (Tearing(s.procs[q], x) || Making(s.procs[q], x))
    ensures Mine(s, x, q)
  {
  }

  lemma BrokenStays(s: Cache, p: Pid, ev: Event, x: Id)
    requires ProcInv(s, p) && NumbersInv(s) && TornInv(s) && Enabled(s, p, ev) && x in Next(s, p, ev).broken
    ensures var s' := Next(s, p, ev); x in s'.dirs && !s'.dirs[x].data.Complete?
  {
    var e := EffectAt(s, p, ev);
    if x in e.broke {
      BrokeByCrash(s, p, ev);
      assert Tearing(s.procs[p], x);
    } else if e.dir.Write? && e.dir.x == x && e.dir.dir.data.Complete? {
      WritesComplete(s, p, ev);
    }
  }

  lemma TornStays(s: Cache, p: Pid, ev: Event, q: Pid, x: Id)
    requires ProcInv(s, p) && ProcInv(s, q) && TornInv(s) && Enabled(s, p, ev) && Fair(s, Next(s, p, ev), p)
    requires q in Next(s, p, ev).procs && Tearing(Next(s, p, ev).procs[q], x)
    ensures var s' := Next(s, p, ev); x in s'.dirs && !s'.dirs[x].data.Complete?
  {
    if q == p {
      TearsIncomplete(s, p, ev, x);
    } else {
      HoldsLock(s, q, x);
    }
  }

  lemma MadeIsWhole(s: Cache, p: Pid, ev: Event, q: Pid, x: Id)
    requires ProcInv(s, p) && ProcInv(s, q) && NumbersInv(s) && TornInv(s) && Enabled(s, p, ev)
    requires Fair(s, Next(s, p, ev), p)
    requires q in Next(s, p, ev).procs && Making(Next(s, p, ev).procs[q], x)
    ensures x !in Next(s, p, ev).broken
  {
    if x in EffectAt(s, p, ev).broke {
      BrokeByCrash(s, p, ev);
      HoldsLock(s, p, x);
      if q != p {
        HoldsLock(s, q, x);
      }
    } else if q == p {
      MakesOwn(s, p, ev, x);
    }
  }

  lemma TornStep(s: Cache, s': Cache)
    requires Inv(s) && TornInv(s) && Step(s, s')
    ensures TornInv(s')
  {
    var p: Pid, ev :| Enabled(s, p, ev) && s' == Next(s, p, ev);
    StepInv(s, p, ev);
    forall x | x in s'.broken ensures x in s'.dirs && !s'.dirs[x].data.Complete? {
      BrokenStays(s, p, ev, x);
    }
    forall q, x | q in s'.procs && Tearing(s'.procs[q], x) ensures x in s'.dirs && !s'.dirs[x].data.Complete? {
      assert ProcInv(s, p) && ProcInv(s, q);
      TornStays(s, p, ev, q, x);
    }
    forall q, x | q in s'.procs && Making(s'.procs[q], x) ensures x !in s'.broken {
      assert ProcInv(s, p) && ProcInv(s, q);
      MadeIsWhole(s, p, ev, q, x);
    }
  }

  lemma {:induction false} RunTorn(run: seq<Cache>, n: nat)
    requires IsRun(run) && n < |run|
    ensures TornInv(run[n])
  {
    if n > 0 {
      RunTorn(run, n - 1);
      RunInv(run, n - 1);
      assert Step(run[n - 1], run[n]);
      TornStep(run[n - 1], run[n]);
    }
  }

  // ------------------------------------------------------------ when it gets broken


  // Somebody died between deleting the first data file of `x` and its lock file.
  ghost predicate TornAt(run: seq<Cache>, i: nat, x: Id) {
    i + 1 < |run| && Torn(run[i], run[i + 1], x)
  }

  ghost predicate Torn(s: Cache, s': Cache, x: Id) {
    exists p :: p in s.procs && Tearing(s.procs[p], x) && p in s'.procs && s'.procs[p].st.Dead?
  }

  lemma BrokenByStep(s: Cache, s': Cache, x: Id)
    requires Step(s, s') && x in s'.broken && x !in s.broken
    ensures Torn(s, s', x)
  {
    var p: Pid, ev :| Enabled(s, p, ev) && s' == Next(s, p, ev);
    assert EffectAt(s, p, ev).broke != {};
    BrokeByCrash(s, p, ev);
    assert Tearing(s.procs[p], x) && s'.procs[p].st.Dead?;
  }

  // What gets broken at step `i` was torn there.
  ghost predicate BreaksByTearing(run: seq<Cache>, i: nat) {
    i + 1 < |run| && forall x :: x in run[i + 1].broken && x !in run[i].broken ==> TornAt(run, i, x)
  }

  lemma RunBreaksByTearing(run: seq<Cache>)
    requires IsRun(run)
    ensures run[0].broken == {} && forall i :: 0 <= i < |run| - 1 ==> BreaksByTearing(run, i)
  {
    forall i | 0 <= i < |run| - 1 ensures BreaksByTearing(run, i) {
      assert Step(run[i], run[i + 1]);
      forall x | x in run[i + 1].broken && x !in run[i].broken ensures TornAt(run, i, x) {
        BrokenByStep(run[i], run[i + 1], x);
      }
    }
  }

  lemma {:induction false} CauseOf(run: seq<Cache>, n: nat, x: Id) returns (i: nat)
    requires n < |run| && x in run[n].broken && run[0].broken == {}
    requires forall i :: 0 <= i < |run| - 1 ==> BreaksByTearing(run, i)
    ensures i < n && TornAt(run, i, x)
  {
    assert BreaksByTearing(run, n - 1);
    if x in run[n - 1].broken {
      i := CauseOf(run, n - 1, x);
    } else {
      i := n - 1;
    }
  }

  /** An entry is broken only because a process that had begun deleting its data, and
      had not yet deleted its lock file, died. */
  lemma BrokenHasCause(run: seq<Cache>, n: nat, x: Id) returns (i: nat)
    requires IsRun(run) && n < |run| && x in run[n].broken
    ensures i < n && TornAt(run, i, x)
  {
    RunBreaksByTearing(run);
    i := CauseOf(run, n, x);
  }

  lemma OnlyCrashKills(s: Cache, p: Pid, ev: Event)
    requires Enabled(s, p, ev) && p in s.procs && EffectAt(s, p, ev).proc.Some?
    requires EffectAt(s, p, ev).proc.value.st.Dead?
    ensures ev.Crash?
  {
    if ev.Run? {
      match s.procs[p].st
      case _ =>
    }
  }

  lemma TornIsRecorded(s: Cache, s': Cache, x: Id)
    requires Step(s, s') && Torn(s, s', x)
    ensures x in s'.broken
  {
    var p :| p in s.procs && Tearing(s.procs[p], x) && p in s'.procs && s'.procs[p].st.Dead?;
    var q: Pid, ev :| Enabled(s, q, ev) && s' == Next(s, q, ev);
    assert q == p;
    OnlyCrashKills(s, p, ev);
    assert EffectAt(s, p, ev).broke == {x};
  }

  lemma {:induction false} RecordStays(run: seq<Cache>, i: nat, n: nat, x: Id)
    requires IsRun(run) && i < n < |run| && TornAt(run, i, x)
    ensures x in run[n].broken
  {
    assert Step(run[n - 1], run[n]);
    if i == n - 1 {
      TornIsRecorded(run[i], run[n], x);
    } else {
      RecordStays(run, i, n - 1, x);
    }
  }

  // A remover of `x` died half-way before the state `n`.
  ghost predicate TornBefore(run: seq<Cache>, n: nat, x: Id) {
    exists i :: 0 <= i < n && TornAt(run, i, x)
  }

  lemma BrokenExactly(run: seq<Cache>, n: nat, x: Id)
    requires IsRun(run) && n < |run|
    ensures x in run[n].broken <==> TornBefore(run, n, x)
  {
    if x in run[n].broken {
      var i := BrokenHasCause(run, n, x);
    }
    if i: nat :| i < n && TornAt(run, i, x) {
      RecordStays(run, i, n, x);
    }
  }

  // ------------------------------------------------------------- what it is for

  /** In every run, with crashes anywhere, whoever holds an entry open through `load`
      has an entry one store committed under that very name.  Its data is the
      complete data of that store exactly when no remover of the entry died after it
      began to delete the data and before it deleted the lock file.  While
      `object.info` is there, that has not happened. */
  lemma LoadSeesCommittedData(run: seq<Cache>, n: nat, p: Pid)
    requires IsRun(run) && n < |run| && p in run[n].procs && run[n].procs[p].st.DHold?
    ensures var s := run[n]; var k := s.procs[p].own.key;
      && Named(k) in s.names && s.names[Named(k)] in s.commits && s.commits[s.names[Named(k)]].key == k
      && (Intact(s, s.names[Named(k)]) <==> !TornBefore(run, n, s.names[Named(k)]))
      && s.names[Named(k)] in s.dirs && (s.dirs[s.names[Named(k)]].info.Some? ==> Intact(s, s.names[Named(k)]))
  {
    RunInv(run, n);
    RunTorn(run, n);
    var s := run[n];
    assert ProcInv(s, p) && (s.procs[p].w.e, p) in s.readers;
    BrokenExactly(run, n, s.names[Named(s.procs[p].own.key)]);
  }

  /** In runs where no remover dies half-way every load is complete. */
  lemma LoadIsComplete(run: seq<Cache>, n: nat, p: Pid)
    requires IsRun(run) && n < |run| && p in run[n].procs && run[n].procs[p].st.DHold?
    requires forall i, x :: 0 <= i < n ==> !TornAt(run, i, x)
    ensures var s := run[n]; Named(s.procs[p].own.key) in s.names && Intact(s, s.names[Named(s.procs[p].own.key)])
  {
    LoadSeesCommittedData(run, n, p);
  }
}
