/**
  What every step of the lock-compare-replace protocol keeps, and what follows for
  updates of `cache.size` and `cache.info` (osbuild/util/fscache.py:375-440, 741-779,
  1178-1232).
 */
module AtomicSafety {
  import opened Wrappers
  import opened AtomicFile

  // ------------------------------------------------------------------ invariant

  ghost function Current(init: Value, log: seq<Entry>): Value {
    if log == [] then init else log[|log| - 1].now
  }

  ghost predicate Lawful(e: Entry) {
    if e.done then Apply(e.req, e.was) == Some(e.now) else Apply(e.req, e.was) == None && e.now == e.was
  }

  // The log is a sequential history: each entry starts from what the one before
  // it left and is the effect of its request on that value.
  ghost predicate Sequential(init: Value, log: seq<Entry>) {
    forall i :: 0 <= i < |log| ==> log[i].was == Current(init, log[..i]) && Lawful(log[i])
  }

  ghost predicate InLog(log: seq<Entry>, op: nat) {
    exists i :: 0 <= i < |log| && log[i].op == op
  }

  ghost predicate Answer(log: seq<Entry>, op: nat, done: bool) {
    exists i :: 0 <= i < |log| && log[i].op == op && log[i].done == done
  }

  ghost predicate ReplacedSince(log: seq<Entry>, seen: nat) {
    exists k :: seen <= k < |log| && log[k].done
  }

  ghost predicate OwnsIno(ph: Phase) {
    !ph.Opening? && !ph.Opened? && !ph.Dead?
  }

  ghost predicate OwnsTmp(ph: Phase) {
    ph.Created? || ph.Written? || ph.Renamed?
  }

  // Passed the comparison and has not replaced the file yet.
  ghost predicate Critical(ph: Phase) {
    ph.Inside? || ph.Loaded? || ph.Created? || ph.Written?
  }

  ghost predicate Decided(pc: PC) {
    pc.ph.Renamed? || pc.ph.Releasing?
  }

  ghost predicate LocksInv(s: State, p: Pid, pc: PC) {
    && (OwnsIno(pc.ph) ==> pc.ino in s.locks && s.locks[pc.ino] == p)
    && (OwnsTmp(pc.ph) ==> pc.tmp in s.locks && s.locks[pc.tmp] == p && pc.tmp != pc.ino)
  }

  ghost predicate FileInv(s: State, pc: PC) {
    && (pc.ph.Opened? ==> pc.ino in s.content)
    && (Critical(pc.ph) ==> s.path == pc.ino)
    && (pc.ph.Stale? ==> s.path != pc.ino)
    && (Critical(pc.ph) && !pc.ph.Inside? ==> pc.ino in s.content && s.content[pc.ino] == Some(pc.was))
    && (pc.ph.Created? || pc.ph.Written? ==> Apply(pc.req, pc.was) == Some(pc.now))
    && (pc.ph.Written? ==> pc.tmp in s.content && s.content[pc.tmp] == Some(pc.now))
    && (pc.ph.Renamed? ==> s.path == pc.tmp)
  }

  // Everything logged since `p` opened the file was done by others.
  ghost predicate SeenInv(s: State, p: Pid, pc: PC) {
    pc.ph.Opened? || pc.ph.Locked? || pc.ph.Stale? ==>
      && pc.seen <= |s.log|
      && (forall k :: pc.seen <= k < |s.log| ==> s.log[k].pid != p)
      && (s.path == pc.ino || ReplacedSince(s.log, pc.seen))
  }

  ghost predicate OpInv(s: State, p: Pid, pc: PC) {
    !pc.ph.Dead? ==>
      && pc.op < |s.reqs| && pc.op !in s.results && pc.req == s.reqs[pc.op]
      && (forall q :: Busy(s, q) && q != p ==> s.pcs[q].op != pc.op)
      && (InLog(s.log, pc.op) <==> Decided(pc))
      && (Decided(pc) ==> Answer(s.log, pc.op, pc.ph.Renamed? || pc.updated))
  }

  ghost predicate HeldInv(s: State) {
    && s.path in s.content && (forall i :: i in s.content ==> i < s.free)
    && forall i :: i in s.locks ==> i in s.content && Accounts(s.pcs, i, s.locks[i])
  }

  ghost predicate LogInv(init: Value, s: State) {
    && s.path in s.content && s.content[s.path] == Some(Current(init, s.log))
    && Sequential(init, s.log)
    && (forall i :: 0 <= i < |s.log| ==> s.log[i].op < |s.reqs| && s.log[i].req == s.reqs[s.log[i].op])
    && (forall i, j :: 0 <= i < j < |s.log| ==> s.log[i].op != s.log[j].op)
    && (forall op :: op in s.results ==> op < |s.reqs| && Answer(s.log, op, s.results[op]))
  }

  ghost predicate FilesInv(s: State) {
    HeldInv(s) && forall p :: p in s.pcs ==> LocksInv(s, p, s.pcs[p]) && FileInv(s, s.pcs[p])
  }

  ghost predicate OpsInv(s: State) {
    forall p :: p in s.pcs ==> SeenInv(s, p, s.pcs[p]) && OpInv(s, p, s.pcs[p])
  }

  ghost predicate Inv(init: Value, s: State) {
    FilesInv(s) && OpsInv(s) && LogInv(init, s)
  }

  // ------------------------------------------------------------- it is inductive

  // What a step of `p` guarantees to every other process: it changes only inodes
  // nobody else holds, and it replaces the file only as holder of its inode.
  ghost predicate Fair(s: State, s': State, p: Pid) {
    && (forall q :: q != p ==> (q in s.pcs <==> q in s'.pcs))
    && (forall q :: q != p && q in s.pcs ==> s'.pcs[q] == s.pcs[q])
    && (forall i :: i in s.locks && s.locks[i] != p ==> i in s'.locks && s'.locks[i] == s.locks[i])
    && (forall i :: i in s.content ==> i in s'.content)
    && (forall i :: i in s.content && i in s.locks && s.locks[i] != p ==> s'.content[i] == s.content[i])
    && (s'.path != s.path ==> s.path in s.locks && s.locks[s.path] == p && s'.path in s.locks && s.locks[s'.path] == p)
  }

  // What the invariant says about the shared files and about `p` itself.
  ghost predicate Local(s: State, p: Pid) {
    HeldInv(s) && (p in s.pcs ==> LocksInv(s, p, s.pcs[p]) && FileInv(s, s.pcs[p]))
  }

  lemma StepIsFair(s: State, p: Pid, a: Act)
    requires Enabled(s, p, a)
    requires Local(s, p)
    ensures var s' := Next(s, p, a); Fair(s, s', p)
  {
    if a.Run? {
      match s.pcs[p].ph
      case Opening =>
      case Opened =>
      case Locked =>
      case Stale =>
      case Inside =>
      case Loaded =>
      case Created =>
      case Written =>
      case Renamed =>
      case Releasing =>
    }
  }

  lemma FilesOther(s: State, p: Pid, s': State, q: Pid)
    requires FilesInv(s) && Fair(s, s', p) && q != p && q in s.pcs
    ensures LocksInv(s', q, s'.pcs[q]) && FileInv(s', s'.pcs[q])
  {
    assert LocksInv(s, q, s.pcs[q]) && FileInv(s, s.pcs[q]);
  }

  lemma FilesOwn(s: State, p: Pid)
    requires Enabled(s, p, Run)
    requires var s' := Next(s, p, Run); Local(s, p) && p in s'.pcs
    ensures var s' := Next(s, p, Run); LocksInv(s', p, s'.pcs[p]) && FileInv(s', s'.pcs[p])
  {
    match s.pcs[p].ph
    case Opening =>
    case Opened =>
    case Locked =>
    case Stale =>
    case Inside =>
    case Loaded =>
    case Created =>
    case Written =>
    case Renamed =>
    case Releasing =>
  }

  // The process `q` has not dropped the inode `i` it holds.
  ghost predicate Accounts(pcs: map<Pid, PC>, i: Inode, q: Pid) {
    q in pcs && ((OwnsIno(pcs[q].ph) && pcs[q].ino == i) || (OwnsTmp(pcs[q].ph) && pcs[q].tmp == i))
  }

  lemma OwnLocks(s: State, p: Pid, i: Inode)
    requires Enabled(s, p, Run) && Local(s, p)
    ensures var s' := Next(s, p, Run); i in s'.locks ==>
      if s'.locks[i] == p then Accounts(s'.pcs, i, p) && i in s'.content else i in s.locks && s.locks[i] == s'.locks[i]
  {
    match s.pcs[p].ph
    case Opening =>
    case Opened =>
    case Locked =>
    case Stale =>
    case Inside =>
    case Loaded =>
    case Created =>
    case Written =>
    case Renamed =>
    case Releasing =>
  }

  // Every lock is held by the process that says so.
  lemma FilesHeld(s: State, p: Pid, a: Act)
    requires Enabled(s, p, a)
    requires Local(s, p)
    ensures var s' := Next(s, p, a); HeldInv(s')
  {
    StepIsFair(s, p, a);
    var s' := Next(s, p, a);
    InodesHeld(s, p, a);
    forall i | i in s'.locks ensures i in s'.content && Accounts(s'.pcs, i, s'.locks[i]) {
      if a.Run? {
        OwnLocks(s, p, i);
      }
    }
  }

  lemma InodesHeld(s: State, p: Pid, a: Act)
    requires Enabled(s, p, a)
    requires Local(s, p)
    ensures var s' := Next(s, p, a); s'.path in s'.content && forall i :: i in s'.content ==> i < s'.free
  {
    if a.Run? {
      match s.pcs[p].ph
      case Opening =>
      case Opened =>
      case Locked =>
      case Stale =>
      case Inside =>
      case Loaded =>
      case Created =>
      case Written =>
      case Renamed =>
      case Releasing =>
    }
  }

  lemma FilesStep(s: State, p: Pid, a: Act)
    requires Enabled(s, p, a)
    requires FilesInv(s)
    ensures var s' := Next(s, p, a); FilesInv(s')
  {
    var s' := Next(s, p, a);
    FilesHeld(s, p, a);
    StepIsFair(s, p, a);
    forall q | q in s'.pcs ensures LocksInv(s', q, s'.pcs[q]) && FileInv(s', s'.pcs[q]) {
      if q != p {
        FilesOther(s, p, s', q);
      } else if a.Run? {
        FilesOwn(s, p);
      }
    }
  }

  lemma LogGrows(log: seq<Entry>, e: Entry)
    ensures forall op :: InLog(log + [e], op) <==> InLog(log, op) || op == e.op
    ensures forall op, done :: Answer(log, op, done) ==> Answer(log + [e], op, done)
    ensures Answer(log + [e], e.op, e.done)
    ensures forall seen: nat :: ReplacedSince(log, seen) ==> ReplacedSince(log + [e], seen)
    ensures e.done ==> forall seen: nat :: seen <= |log| ==> ReplacedSince(log + [e], seen)
  {
    var log' := log + [e];
    assert log'[|log|] == e;
    forall i | 0 <= i < |log| ensures log'[i] == log[i] {
    }
    forall op | InLog(log, op) ensures InLog(log', op) {
      var i :| 0 <= i < |log| && log[i].op == op;
      assert log'[i].op == op;
    }
    forall op, done | Answer(log, op, done) ensures Answer(log', op, done) {
      var i :| 0 <= i < |log| && log[i].op == op && log[i].done == done;
      assert log'[i].op == op;
    }
    forall seen: nat | ReplacedSince(log, seen) ensures ReplacedSince(log', seen) {
      var k :| seen <= k < |log| && log[k].done;
      assert log'[k].done;
    }
  }

  // The entry a step of `p` adds to the log, if any.
  ghost function Added(s: State, p: Pid, a: Act): Option<Entry> {
    if a.Run? && p in s.pcs && s.pcs[p].ph.Written? then Some(Replacement(p, s.pcs[p]))
    else if a.Run? && p in s.pcs && s.pcs[p].ph.Loaded? && Apply(s.pcs[p].req, s.pcs[p].was).None?
    then Some(Refusal(p, s.pcs[p]))
    else None
  }

  // What a step of `p` does to the records.
  ghost predicate Logged(s: State, s': State, p: Pid, added: Option<Entry>) {
    && s.reqs <= s'.reqs
    && s'.log == (if added.Some? then s.log + [added.value] else s.log)
    && (added.Some? ==> Busy(s, p) && Busy(s', p) && added.value.pid == p && added.value.op == s.pcs[p].op)
    && (s'.path != s.path ==> added.Some? && added.value.done)
    && (forall op :: op in s.results ==> op in s'.results)
    && (forall op :: op in s'.results && op !in s.results ==> Busy(s, p) && op == s.pcs[p].op && !Busy(s', p))
    && (Busy(s', p) && Busy(s, p) ==>
          && s'.pcs[p].op == s.pcs[p].op && s'.pcs[p].req == s.pcs[p].req
          && (Decided(s'.pcs[p]) <==> Decided(s.pcs[p]) || added.Some?)
          && (added.Some? ==> added.value.done == (s'.pcs[p].ph.Renamed? || s'.pcs[p].updated))
          && (Decided(s.pcs[p]) ==> s.pcs[p].ph.Renamed? && s'.pcs[p].updated))
    && (Busy(s', p) && !Busy(s, p) ==>
          && !Decided(s'.pcs[p]) && s'.pcs[p].op == |s.reqs| && s'.reqs == s.reqs + [s'.pcs[p].req])
  }

  lemma StepIsLogged(s: State, p: Pid, a: Act)
    requires Enabled(s, p, a)
    ensures Logged(s, Next(s, p, a), p, Added(s, p, a))
  {
    if a.Run? {
      match s.pcs[p].ph
      case Opening =>
      case Opened =>
      case Locked =>
      case Stale =>
      case Inside =>
      case Loaded =>
      case Created =>
      case Written =>
      case Renamed =>
      case Releasing =>
    }
  }

  lemma OpsOther(s: State, p: Pid, s': State, added: Option<Entry>, q: Pid)
    requires OpsInv(s) && FilesInv(s) && Fair(s, s', p) && Logged(s, s', p, added) && q != p && q in s.pcs
    ensures SeenInv(s', q, s'.pcs[q]) && OpInv(s', q, s'.pcs[q])
  {
    assert SeenInv(s, q, s.pcs[q]) && OpInv(s, q, s.pcs[q]);
    if added.Some? {
      LogGrows(s.log, added.value);
    }
  }

  lemma SeenOwn(s: State, p: Pid, a: Act)
    requires Enabled(s, p, a)
    requires var s' := Next(s, p, a); p in s'.pcs
    requires p in s.pcs ==> SeenInv(s, p, s.pcs[p])
    ensures var s' := Next(s, p, a); SeenInv(s', p, s'.pcs[p])
  {
    if a.Run? {
      match s.pcs[p].ph
      case Opening =>
      case Opened =>
      case Locked =>
      case Stale =>
      case Inside =>
      case Loaded =>
      case Created =>
      case Written =>
      case Renamed =>
      case Releasing =>
    }
  }

  lemma OpsOwn(s: State, p: Pid, s': State, added: Option<Entry>)
    requires Fair(s, s', p) && Logged(s, s', p, added) && Busy(s', p) && (Busy(s, p) ==> OpInv(s, p, s.pcs[p]))
    requires forall q :: Busy(s, q) ==> s.pcs[q].op < |s.reqs|
    requires forall i :: 0 <= i < |s.log| ==> s.log[i].op < |s.reqs|
    requires forall op :: op in s.results ==> op < |s.reqs|
    ensures OpInv(s', p, s'.pcs[p])
  {
    if added.Some? {
      LogGrows(s.log, added.value);
    }
  }

  lemma OpsStep(s: State, p: Pid, a: Act)
    requires Enabled(s, p, a)
    requires OpsInv(s) && FilesInv(s)
    requires forall i :: 0 <= i < |s.log| ==> s.log[i].op < |s.reqs|
    requires forall op :: op in s.results ==> op < |s.reqs|
    ensures var s' := Next(s, p, a); OpsInv(s')
  {
    var s' := Next(s, p, a);
    StepIsFair(s, p, a);
    StepIsLogged(s, p, a);
    forall q | q in s'.pcs ensures SeenInv(s', q, s'.pcs[q]) && OpInv(s', q, s'.pcs[q]) {
      if q == p {
        assert p in s.pcs ==> SeenInv(s, p, s.pcs[p]) && OpInv(s, p, s.pcs[p]);
        forall r | Busy(s, r) ensures s.pcs[r].op < |s.reqs| {
          assert OpInv(s, r, s.pcs[r]);
        }
        SeenOwn(s, p, a);
        if Busy(s', p) {
          OpsOwn(s, p, s', Added(s, p, a));
        }
      } else {
        OpsOther(s, p, s', Added(s, p, a), q);
      }
    }
  }

  // A history extended by a lawful entry that starts from the current value.
  lemma SequentialGrows(init: Value, log: seq<Entry>, e: Entry)
    requires Sequential(init, log) && e.was == Current(init, log) && Lawful(e)
    ensures Sequential(init, log + [e])
  {
    var log' := log + [e];
    forall i | 0 <= i < |log'| ensures log'[i].was == Current(init, log'[..i]) && Lawful(log'[i]) {
      assert i < |log| ==> log'[..i] == log[..i];
      assert log'[..|log|] == log;
    }
  }

  // What a step does to the file the path names.
  lemma StepContent(s: State, p: Pid, a: Act)
    requires Enabled(s, p, a) && Local(s, p)
    ensures var s' := Next(s, p, a); var added := Added(s, p, a);
      && s'.path in s'.content
      && s'.content[s'.path] == (if added.Some? then Some(added.value.now) else s.content[s.path])
    ensures var added := Added(s, p, a); added.Some? ==>
      Lawful(added.value) && Some(added.value.was) == s.content[s.path]
  {
    if a.Run? {
      match s.pcs[p].ph
      case Opening =>
      case Opened =>
      case Locked =>
      case Stale =>
      case Inside =>
      case Loaded =>
      case Created =>
      case Written =>
      case Renamed =>
      case Releasing =>
    }
  }

  lemma StepResults(s: State, p: Pid, a: Act)
    requires Enabled(s, p, a)
    ensures var s' := Next(s, p, a); forall op :: op in s'.results ==>
      || (op in s.results && s'.results[op] == s.results[op])
      || (Busy(s, p) && s.pcs[p].ph.Releasing? && op == s.pcs[p].op && s'.results[op] == s.pcs[p].updated)
  {
  }

  // Appending the entry of a process whose operation was not in the log yet.
  lemma RecordsGrow(log: seq<Entry>, reqs: seq<Request>, reqs': seq<Request>, e: Entry)
    requires reqs <= reqs' && e.op < |reqs| && e.req == reqs[e.op] && !InLog(log, e.op)
    requires forall i :: 0 <= i < |log| ==> log[i].op < |reqs| && log[i].req == reqs[log[i].op]
    requires forall i, j :: 0 <= i < j < |log| ==> log[i].op != log[j].op
    ensures var log' := log + [e];
      && (forall i :: 0 <= i < |log'| ==> log'[i].op < |reqs'| && log'[i].req == reqs'[log'[i].op])
      && (forall i, j :: 0 <= i < j < |log'| ==> log'[i].op != log'[j].op)
  {
  }

  lemma LogStep(init: Value, s: State, p: Pid, a: Act)
    requires Enabled(s, p, a) && Inv(init, s)
    ensures LogInv(init, Next(s, p, a))
  {
    assert p in s.pcs ==> OpInv(s, p, s.pcs[p]) && LocksInv(s, p, s.pcs[p]) && FileInv(s, s.pcs[p]);
    StepContent(s, p, a);
    StepIsLogged(s, p, a);
    ResultsStep(init, s, p, a);
    LogExtends(init, s, Next(s, p, a), p, Added(s, p, a));
  }

  // What the invariant says about the log, once the step is summed up.
  lemma LogExtends(init: Value, s: State, s': State, p: Pid, added: Option<Entry>)
    requires LogInv(init, s) && Logged(s, s', p, added)
    requires s'.path in s'.content
    requires s'.content[s'.path] == (if added.Some? then Some(added.value.now) else s.content[s.path])
    requires added.Some? ==>
      && Lawful(added.value) && Some(added.value.was) == s.content[s.path]
      && added.value.op < |s.reqs| && added.value.req == s.reqs[added.value.op] && !InLog(s.log, added.value.op)
    requires forall op :: op in s'.results ==> op < |s'.reqs| && Answer(s'.log, op, s'.results[op])
    ensures LogInv(init, s')
  {
    if added.Some? {
      SequentialGrows(init, s.log, added.value);
      RecordsGrow(s.log, s.reqs, s'.reqs, added.value);
    }
  }

  lemma ResultsStep(init: Value, s: State, p: Pid, a: Act)
    requires Enabled(s, p, a) && LogInv(init, s) && (p in s.pcs ==> OpInv(s, p, s.pcs[p]))
    ensures var s' := Next(s, p, a); forall op :: op in s'.results ==>
      op < |s'.reqs| && Answer(s'.log, op, s'.results[op])
  {
    StepIsLogged(s, p, a);
    StepResults(s, p, a);
    if Added(s, p, a).Some? {
      LogGrows(s.log, Added(s, p, a).value);
    }
  }

  lemma StepInv(init: Value, s: State, s': State)
    requires Inv(init, s) && Step(s, s')
    ensures Inv(init, s')
  {
    var p, a :| Enabled(s, p, a) && s' == Next(s, p, a);
    FilesStep(s, p, a);
    OpsStep(s, p, a);
    LogStep(init, s, p, a);
  }

  lemma {:induction false} RunInv(init: Value, run: seq<State>, n: nat)
    requires IsRun(init, run) && n < |run|
    ensures Inv(init, run[n])
  {
    if n > 0 {
      RunInv(init, run, n - 1);
      assert Step(run[n - 1], run[n]);
      StepInv(init, run[n - 1], run[n]);
    }
  }

  // ------------------------------------------------------------- what it is for

  /** In every run, with crashes anywhere, the decided calls form a sequential
      history that answers what was asked, and the file the path names always
      holds the complete value the history ends with. */
  lemma UpdatesAreSequential(init: Value, run: seq<State>, n: nat)
    requires IsRun(init, run) && n < |run|
    ensures var s := run[n];
      && Sequential(init, s.log)
      && s.path in s.content && s.content[s.path] == Some(Current(init, s.log))
      && forall i :: 0 <= i < |s.log| ==> s.log[i].op < |s.reqs| && s.log[i].req == s.reqs[s.log[i].op]
  {
    RunInv(init, run, n);
  }

  /** No update is lost or applied twice: an answered call is in the history
      exactly once, decided the way it was answered, and a call that was cut short
      is in it at most once. */
  lemma EachCallOnce(init: Value, run: seq<State>, n: nat)
    requires IsRun(init, run) && n < |run|
    ensures var s := run[n];
      && (forall i, j :: 0 <= i < |s.log| && 0 <= j < |s.log| && s.log[i].op == s.log[j].op ==> i == j)
      && (forall op :: op in s.results ==> Answer(s.log, op, s.results[op]) && !Answer(s.log, op, !s.results[op]))
  {
    RunInv(init, run, n);
  }

  /** At most one process is between the successful comparison and the rename, and
      it holds the lock of the inode the path names, whose value it works from. */
  lemma OneInside(init: Value, run: seq<State>, n: nat, p: Pid, q: Pid)
    requires IsRun(init, run) && n < |run|
    requires p in run[n].pcs && Critical(run[n].pcs[p].ph) && q in run[n].pcs && Critical(run[n].pcs[q].ph)
    ensures var s := run[n];
      && p == q && s.path in s.locks && s.locks[s.path] == p
      && (!s.pcs[p].ph.Inside? ==> s.path in s.content && s.content[s.path] == Some(s.pcs[p].was))
  {
    RunInv(init, run, n);
    assert LocksInv(run[n], p, run[n].pcs[p]) && FileInv(run[n], run[n].pcs[p]);
    assert LocksInv(run[n], q, run[n].pcs[q]) && FileInv(run[n], run[n].pcs[q]);
  }

  /** A process retries only because another one completed a replacement between
      its open and its comparison. */
  lemma RetryHasCause(init: Value, run: seq<State>, n: nat, p: Pid)
    requires IsRun(init, run) && n < |run| && p in run[n].pcs && run[n].pcs[p].ph.Stale?
    ensures var s := run[n];
      exists k :: s.pcs[p].seen <= k < |s.log| && s.log[k].done && s.log[k].pid != p
  {
    RunInv(init, run, n);
    var s := run[n];
    assert FileInv(s, s.pcs[p]) && SeenInv(s, p, s.pcs[p]);
    var k :| s.pcs[p].seen <= k < |s.log| && s.log[k].done;
    assert s.log[k].pid != p;
  }

  ghost predicate AllResize(reqs: seq<Request>, limit: int) {
    forall i :: 0 <= i < |reqs| ==> reqs[i].Resize? && reqs[i].limit == limit
  }

  ghost predicate Within(v: Value, limit: int) {
    v.Number? && 0 <= v.n && (limit >= 0 ==> v.n <= limit)
  }

  lemma PrefixSequential(init: Value, log: seq<Entry>)
    requires Sequential(init, log) && log != []
    ensures Sequential(init, log[..|log| - 1])
  {
    var m := |log| - 1;
    forall i | 0 <= i < m ensures log[..m][i].was == Current(init, log[..m][..i]) && Lawful(log[..m][i]) {
      assert log[..m][..i] == log[..i];
    }
  }

  lemma {:induction false} HistoryWithin(init: Value, log: seq<Entry>, limit: int)
    requires Within(init, limit) && Sequential(init, log)
    requires forall i :: 0 <= i < |log| ==> log[i].req.Resize? && log[i].req.limit == limit
    ensures Within(Current(init, log), limit)
    ensures forall i :: 0 <= i < |log| && log[i].req.diff <= 0 ==> log[i].done
  {
    if log != [] {
      var m := |log| - 1;
      PrefixSequential(init, log);
      HistoryWithin(init, log[..m], limit);
      assert log[m].was == Current(init, log[..m]) && Lawful(log[m]);
      forall i | 0 <= i < |log| && log[i].req.diff <= 0 ensures log[i].done {
        assert i < m ==> log[..m][i] == log[i];
      }
    }
  }

  /** While all processes use one limit, `cache.size` stays between zero and that
      limit (or just non-negative when unlimited) and no negative update is ever
      refused. */
  lemma SizeStaysWithinLimit(init: Value, limit: int, run: seq<State>, n: nat)
    requires IsRun(init, run) && n < |run| && Within(init, limit) && AllResize(run[n].reqs, limit)
    ensures var s := run[n];
      && s.path in s.content && s.content[s.path].Some? && Within(s.content[s.path].value, limit)
      && forall op :: op in s.results ==> op < |s.reqs| && (s.reqs[op].diff <= 0 ==> s.results[op])
  {
    RunInv(init, run, n);
    var s := run[n];
    HistoryWithin(init, s.log, limit);
    forall op | op in s.results ensures op < |s.reqs| && (s.reqs[op].diff <= 0 ==> s.results[op]) {
      var i :| 0 <= i < |s.log| && s.log[i].op == op && s.log[i].done == s.results[op];
    }
  }

  // A request to take something away (or nothing) that was decided against.
  ghost predicate RefusedIffAbove(e: Entry) {
    e.was.Number? && e.req.Resize? && (e.req.diff <= 0 ==> (!e.done <==> 0 <= e.req.limit < e.was.n + e.req.diff))
  }

  lemma {:induction false} HistoryRefuses(init: Value, log: seq<Entry>)
    requires init.Number? && 0 <= init.n && Sequential(init, log) && forall i :: 0 <= i < |log| ==> log[i].req.Resize?
    ensures Current(init, log).Number? && 0 <= Current(init, log).n
    ensures forall i :: 0 <= i < |log| ==> RefusedIffAbove(log[i])
  {
    if log != [] {
      var m := |log| - 1;
      PrefixSequential(init, log);
      HistoryRefuses(init, log[..m]);
      assert log[m].was == Current(init, log[..m]) && Lawful(log[m]);
      forall i | 0 <= i < |log| ensures RefusedIffAbove(log[i]) {
        assert i < m ==> log[..m][i] == log[i];
      }
    }
  }

  /** Whatever limits the processes use: in every run, taking something away is refused
      exactly when what remains is above the limit of the process that asks. */
  lemma NegativeRefusedExactly(init: Value, run: seq<State>, n: nat)
    requires IsRun(init, run) && n < |run| && init.Number? && 0 <= init.n
    requires forall op :: 0 <= op < |run[n].reqs| ==> run[n].reqs[op].Resize?
    ensures forall i :: 0 <= i < |run[n].log| ==> RefusedIffAbove(run[n].log[i])
    ensures forall op :: op in run[n].results ==> Answer(run[n].log, op, run[n].results[op])
  {
    RunInv(init, run, n);
    HistoryRefuses(init, run[n].log);
  }

  lemma {:induction false} MergedKey(init: Value, log: seq<Entry>, i: nat, key: string)
    requires init.Fields? && Sequential(init, log) && i <= |log|
    requires forall k :: 0 <= k < |log| ==> log[k].req.SetInfo?
    requires forall k :: i <= k < |log| ==> key !in log[k].req.update
    requires Current(init, log[..i]).Fields?
    ensures Current(init, log).Fields?
    ensures var a, b := Current(init, log[..i]).fields, Current(init, log).fields;
      (key in a <==> key in b) && (key in a ==> a[key] == b[key])
    decreases |log| - i
  {
    if i == |log| {
      assert log[..i] == log;
    } else {
      assert log[..i + 1][|log[..i + 1]| - 1] == log[i];
      assert log[i].was == Current(init, log[..i]) && Lawful(log[i]);
      MergedKey(init, log, i + 1, key);
    }
  }

  lemma {:induction false} AlwaysFields(init: Value, log: seq<Entry>)
    requires init.Fields? && Sequential(init, log)
    requires forall k :: 0 <= k < |log| ==> log[k].req.SetInfo?
    ensures forall i :: 0 <= i <= |log| ==> Current(init, log[..i]).Fields?
    decreases |log|
  {
    if log != [] {
      var m := |log| - 1;
      PrefixSequential(init, log);
      AlwaysFields(init, log[..m]);
      forall i | 0 <= i <= |log| ensures Current(init, log[..i]).Fields? {
        if i <= m {
          assert log[..m][..i] == log[..i];
        } else {
          assert log[..i] == log && log[m].was == Current(init, log[..m]) && log[..m][..m] == log[..m];
        }
      }
    }
  }

  /** Concurrent assignments to `info` never discard information: a key keeps the
      value of the last update in the history that mentions it, or its first value
      when none does, unknown keys included. */
  lemma InfoKeepsEveryKey(init: Value, run: seq<State>, n: nat, i: nat, key: string)
    requires IsRun(init, run) && n < |run| && init.Fields?
    requires forall k :: 0 <= k < |run[n].log| ==> run[n].log[k].req.SetInfo?
    requires i < |run[n].log| && key in run[n].log[i].req.update
    requires forall k :: i < k < |run[n].log| ==> key !in run[n].log[k].req.update
    ensures var s := run[n];
      && s.path in s.content && s.content[s.path].Some? && s.content[s.path].value.Fields?
      && key in s.content[s.path].value.fields
      && s.content[s.path].value.fields[key] == s.log[i].req.update[key]
  {
    RunInv(init, run, n);
    var log := run[n].log;
    AlwaysFields(init, log);
    MergedKey(init, log, i + 1, key);
    assert log[..i + 1][i] == log[i];
    assert log[i].was == Current(init, log[..i]) && Lawful(log[i]);
  }

  lemma InfoKeepsUnknownKeys(init: Value, run: seq<State>, n: nat, key: string)
    requires IsRun(init, run) && n < |run| && init.Fields? && key in init.fields
    requires forall k :: 0 <= k < |run[n].reqs| ==> run[n].reqs[k].SetInfo? && key !in run[n].reqs[k].update
    ensures var s := run[n];
      && s.path in s.content && s.content[s.path].Some? && s.content[s.path].value.Fields?
      && key in s.content[s.path].value.fields && s.content[s.path].value.fields[key] == init.fields[key]
  {
    RunInv(init, run, n);
    AlwaysFields(init, run[n].log);
    MergedKey(init, run[n].log, 0, key);
  }
}
