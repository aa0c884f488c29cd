/**
  The handshake of `IdMaps.exec` (osbuild/util/linux.py:484-534): a parent and the
  child it forked, two pipes, and every interleaving of their system calls.  The
  child may also be killed from outside at any time.
 */
module IdMapsExec {
  import opened Wrappers

  // The open ends of the pipes child -> parent (ready) and parent -> child (go).
  datatype Ends = Ends(readyR: bool, readyW: bool, goR: bool, goW: bool)

  const ALL := Ends(true, true, true, true)
  const NONE := Ends(false, false, false, false)

  datatype Result = Fallback | Status(code: int) | Raised

  datatype Parent =
    | PCloseReadyW | PCloseGoR | PRead
    | PNoNamespace                                      // close go_w, then wait
    | PCloseReadyR | PInstallUid | PInstallGid
    | PNoMaps                                           // close go_w, then wait
    | PGo | PCloseGo
    | PWaitFallback | PWaitStatus
    | PDone(result: Result)

  datatype Child =
    | CCloseReadyR | CCloseGoW | CUnshare
    | CWriteE | CWriteK | CCloseReadyW | CRead | CCloseGoR | CExec
    | CProgram                                          // runs `argv`
    | CExited(code: int) | CKilled
    | CReaped

  // `execed` records that `argv` was started.
  datatype State = State(
    parent: Parent, child: Child, pfds: Ends, cfds: Ends, ready: seq<char>, go: seq<char>,
    uidMap: bool, gidMap: bool, execed: bool)

  // `ok` and `code` are what the kernel and other programs answer.
  datatype Act = ParentStep(ok: bool) | ChildStep(ok: bool, code: int) | Kill

  predicate Over(c: Child) { c.CExited? || c.CKilled? }

  predicate Alive(c: Child) { !Over(c) && !c.CReaped? }

  // A read returns when there is data, or nobody is left to write any.
  predicate Readable(buffer: seq<char>, writer: bool) { buffer != [] || !writer }

  predicate Enabled(s: State, a: Act) {
    match a
    case ParentStep(_) =>
      && !s.parent.PDone?
      && (s.parent.PRead? ==> Readable(s.ready, s.pfds.readyW || s.cfds.readyW))
      && (s.parent.PWaitFallback? || s.parent.PWaitStatus? ==> Over(s.child))
    case ChildStep(_, _) => Alive(s.child) && (s.child.CRead? ==> Readable(s.go, s.pfds.goW || s.cfds.goW))
    case Kill => Alive(s.child)
  }

  function Next(s: State, a: Act): State
    requires Enabled(s, a)
  {
    match a
    case ParentStep(ok) => StepParent(s, ok)
    case ChildStep(ok, code) => StepChild(s, ok, code)
    case Kill => s.(child := CKilled, cfds := NONE)
  }

  function StepParent(s: State, ok: bool): State
    requires Enabled(s, ParentStep(ok))
  {
    match s.parent
    case PCloseReadyW => s.(parent := PCloseGoR, pfds := s.pfds.(readyW := false))
    case PCloseGoR => s.(parent := PRead, pfds := s.pfds.(goR := false))
    case PRead =>
      if s.ready != [] && s.ready[0] == 'K' then s.(parent := PCloseReadyR, ready := s.ready[1..])
      else s.(parent := PNoNamespace)
    case PNoNamespace => s.(parent := PWaitFallback, pfds := s.pfds.(goW := false))
    case PCloseReadyR => s.(parent := PInstallUid, pfds := s.pfds.(readyR := false))
    case PInstallUid => if ok then s.(parent := PInstallGid, uidMap := true) else s.(parent := PNoMaps)
    case PInstallGid => if ok then s.(parent := PGo, gidMap := true) else s.(parent := PNoMaps)
    case PNoMaps => s.(parent := PWaitFallback, pfds := s.pfds.(goW := false))
    case PGo =>
      // writing to a pipe nobody reads raises BrokenPipeError
      if s.cfds.goR || s.pfds.goR then s.(parent := PCloseGo, go := s.go + ['K']) else s.(parent := PDone(Raised))
    case PCloseGo => s.(parent := PWaitStatus, pfds := s.pfds.(goW := false))
    case PWaitFallback => s.(parent := PDone(Fallback), child := CReaped)
    case PWaitStatus => s.(parent := PDone(Status(if s.child.CExited? then s.child.code else 1)), child := CReaped)
    case PDone(_) => s
  }

  function Exit(s: State, code: int): State { s.(child := CExited(code), cfds := NONE) }

  function StepChild(s: State, ok: bool, code: int): State
    requires Enabled(s, ChildStep(ok, code))
  {
    match s.child
    case CCloseReadyR => s.(child := CCloseGoW, cfds := s.cfds.(readyR := false))
    case CCloseGoW => s.(child := CUnshare, cfds := s.cfds.(goW := false))
    case CUnshare => s.(child := if ok then CWriteK else CWriteE)
    case CWriteE => Exit(s.(ready := s.ready + ['E']), 0)
    case CWriteK => s.(child := CCloseReadyW, ready := s.ready + ['K'])
    case CCloseReadyW => s.(child := CRead, cfds := s.cfds.(readyW := false))
    case CRead => if s.go != [] && s.go[0] == 'K' then s.(child := CCloseGoR, go := s.go[1..]) else Exit(s, 0)
    case CCloseGoR => s.(child := CExec, cfds := s.cfds.(goR := false))
    case CExec => s.(child := CProgram, cfds := NONE, execed := true)   // the pipes are close-on-exec
    case CProgram => Exit(s, code)
    case _ => s
  }

  ghost predicate Step(s: State, s': State) { exists a :: Enabled(s, a) && s' == Next(s, a) }

  // Right after `fork`, both have all ends.
  predicate Init(s: State) {
    && s.parent == PCloseReadyW && s.child == CCloseReadyR
    && s.pfds == ALL && s.cfds == ALL
    && s.ready == [] && s.go == [] && !s.uidMap && !s.gidMap && !s.execed
  }

  ghost predicate IsRun(run: seq<State>) {
    && |run| > 0 && Init(run[0])
    && forall i :: 0 <= i < |run| - 1 ==> Step(run[i], run[i + 1])
  }

  // -------------------------------------------------------------------- invariant

  // Before the child has said that the namespace is there.
  predicate Unready(c: Child) { c.CCloseReadyR? || c.CCloseGoW? || c.CUnshare? || c.CWriteE? || c.CWriteK? }

  // The parent has read that it is.
  predicate Heard(p: Parent) {
    p.PCloseReadyR? || p.PInstallUid? || p.PInstallGid? || p.PNoMaps? || p.PGo? || Told(p)
  }

  // The ends each side has, as far as waiting depends on them.
  predicate EndsInv(s: State) {
    && (s.pfds.readyW <==> s.parent.PCloseReadyW?)
    && (s.pfds.goR <==> s.parent.PCloseReadyW? || s.parent.PCloseGoR?)
    && (s.pfds.goW ==>
          s.parent == PDone(Raised) || (!s.parent.PWaitFallback? && !s.parent.PWaitStatus? && !s.parent.PDone?))
    && (s.cfds.goW ==> s.child.CCloseReadyR? || s.child.CCloseGoW?)
    && (s.cfds.readyW ==>
          Alive(s.child) && !s.child.CRead? && !s.child.CCloseGoR? && !s.child.CExec? && !s.child.CProgram?)
    && (Over(s.child) || s.child.CReaped? ==> s.cfds == NONE)
    && (Unready(s.child) || s.child.CCloseReadyW? || s.child.CRead? ==> s.cfds.goR)
  }

  // The parent went ahead: it told the child that the maps are there.
  predicate Told(p: Parent) { p.PCloseGo? || p.PWaitStatus? || (p.PDone? && p.result.Status?) }

  predicate ProtocolInv(s: State) {
    && (s.go != [] ==> s.go == ['K'] && Told(s.parent) && s.uidMap && s.gidMap)
    && (s.child.CCloseGoR? || s.child.CExec? || s.child.CProgram? || s.execed ==>
          Told(s.parent) && s.uidMap && s.gidMap)
    && (Told(s.parent) ==> s.uidMap && s.gidMap)
    && (s.parent.PInstallGid? ==> s.uidMap)
    && (s.parent.PGo? ==> s.uidMap && s.gidMap)
    && (s.ready != [] ==> |s.ready| == 1)
    && (s.ready != [] || Heard(s.parent) ==> !Unready(s.child))
    && (s.child.CReaped? <==> s.parent.PDone? && !s.parent.result.Raised?)
    && ((s.child.CCloseReadyW? || s.child.CRead?) && Told(s.parent) ==> s.go == ['K'])
  }

  predicate Inv(s: State) { EndsInv(s) && ProtocolInv(s) }

  lemma ParentEnds(s: State, ok: bool)
    requires Inv(s) && Enabled(s, ParentStep(ok))
    ensures EndsInv(StepParent(s, ok))
  {
    match s.parent
    case PCloseReadyW =>
    case PCloseGoR =>
    case PRead =>
    case PNoNamespace =>
    case PCloseReadyR =>
    case PInstallUid =>
    case PInstallGid =>
    case PNoMaps =>
    case PGo =>
    case PCloseGo =>
    case PWaitFallback =>
    case PWaitStatus =>
  }

  lemma ParentListens(s: State, ok: bool)
    requires Inv(s) && Enabled(s, ParentStep(ok)) && !Heard(s.parent)
    ensures ProtocolInv(StepParent(s, ok))
  {
    match s.parent
    case PCloseReadyW =>
    case PCloseGoR =>
    case PRead =>
    case PNoNamespace =>
    case _ =>
  }

  lemma ParentAnswers(s: State, ok: bool)
    requires Inv(s) && Enabled(s, ParentStep(ok)) && Heard(s.parent)
    ensures ProtocolInv(StepParent(s, ok))
  {
    match s.parent
    case PCloseReadyR =>
    case PInstallUid =>
    case PInstallGid =>
    case PNoMaps =>
    case PGo =>
    case PCloseGo =>
    case _ =>
  }

  lemma ParentProtocol(s: State, ok: bool)
    requires Inv(s) && Enabled(s, ParentStep(ok))
    ensures ProtocolInv(StepParent(s, ok))
  {
    if Heard(s.parent) {
      ParentAnswers(s, ok);
    } else {
      ParentListens(s, ok);
    }
  }

  lemma ChildEnds(s: State, ok: bool, code: int)
    requires Inv(s) && Enabled(s, ChildStep(ok, code))
    ensures EndsInv(StepChild(s, ok, code))
  {
    match s.child
    case CCloseReadyR =>
    case CCloseGoW =>
    case CUnshare =>
    case CWriteE =>
    case CWriteK =>
    case CCloseReadyW =>
    case CRead =>
    case CCloseGoR =>
    case CExec =>
    case CProgram =>
  }

  lemma ChildProtocol(s: State, ok: bool, code: int)
    requires Inv(s) && Enabled(s, ChildStep(ok, code))
    ensures ProtocolInv(StepChild(s, ok, code))
  {
    match s.child
    case CCloseReadyR =>
    case CCloseGoW =>
    case CUnshare =>
    case CWriteE =>
    case CWriteK =>
    case CCloseReadyW =>
    case CRead =>
    case CCloseGoR =>
    case CExec =>
    case CProgram =>
  }

  lemma StepInv(s: State, a: Act)
    requires Inv(s) && Enabled(s, a)
    ensures Inv(Next(s, a))
  {
    match a
    case ParentStep(ok) =>
      ParentEnds(s, ok);
      ParentProtocol(s, ok);
    case ChildStep(ok, code) =>
      ChildEnds(s, ok, code);
      ChildProtocol(s, ok, code);
    case Kill =>
  }

  lemma {:induction false} RunInv(run: seq<State>, n: nat)
    requires IsRun(run) && n < |run|
    ensures Inv(run[n])
  {
    if n > 0 {
      RunInv(run, n - 1);
      assert Step(run[n - 1], run[n]);
      var a :| Enabled(run[n - 1], a) && run[n] == Next(run[n - 1], a);
      StepInv(run[n - 1], a);
    }
  }

  // --------------------------------------------------------------------- theorems

  /** The child starts `argv` only when both maps have been installed. */
  lemma ExecOnlyWithMaps(run: seq<State>, n: nat)
    requires IsRun(run) && n < |run| && (run[n].child.CExec? || run[n].execed)
    ensures run[n].uidMap && run[n].gidMap
  {
    RunInv(run, n);
  }

  /** Falling back means: the child is gone, reaped, and never started `argv`. */
  lemma FallbackMeansNoExec(run: seq<State>, n: nat)
    requires IsRun(run) && n < |run| && run[n].parent == PDone(Fallback)
    ensures run[n].child.CReaped? && !run[n].execed
  {
    RunInv(run, n);
  }

  // Steps still to come, at most.
  function ParentLeft(p: Parent): nat {
    match p
    case PCloseReadyW => 9 case PCloseGoR => 8 case PRead => 7
    case PNoNamespace => 2
    case PCloseReadyR => 6 case PInstallUid => 5 case PInstallGid => 4
    case PNoMaps => 2
    case PGo => 3 case PCloseGo => 2
    case PWaitFallback => 1 case PWaitStatus => 1
    case PDone(_) => 0
  }

  function ChildLeft(c: Child): nat {
    match c
    case CCloseReadyR => 11 case CCloseGoW => 10 case CUnshare => 9
    case CWriteE => 8 case CWriteK => 8 case CCloseReadyW => 7 case CRead => 6 case CCloseGoR => 5 case CExec => 4
    case CProgram => 3
    case CExited(_) => 1 case CKilled => 1
    case CReaped => 0
  }

  function Left(s: State): nat { ParentLeft(s.parent) + ChildLeft(s.child) }

  /** Every step brings the end nearer ... */
  lemma StepsRunOut(s: State, a: Act)
    requires Enabled(s, a)
    ensures Left(Next(s, a)) < Left(s)
  {
    match a
    case ParentStep(ok) => ParentRunsOut(s, ok);
    case ChildStep(ok, code) => ChildRunsOut(s, ok, code);
    case Kill =>
  }

  lemma ParentRunsOut(s: State, ok: bool)
    requires Enabled(s, ParentStep(ok))
    ensures Left(StepParent(s, ok)) < Left(s)
  {
    match s.parent
    case PCloseReadyW =>
    case PCloseGoR =>
    case PRead =>
    case PNoNamespace =>
    case PCloseReadyR =>
    case PInstallUid =>
    case PInstallGid =>
    case PNoMaps =>
    case PGo =>
    case PCloseGo =>
    case PWaitFallback =>
    case PWaitStatus =>
  }

  lemma ChildRunsOut(s: State, ok: bool, code: int)
    requires Enabled(s, ChildStep(ok, code))
    ensures Left(StepChild(s, ok, code)) < Left(s)
  {
    match s.child
    case CCloseReadyR =>
    case CCloseGoW =>
    case CUnshare =>
    case CWriteE =>
    case CWriteK =>
    case CCloseReadyW =>
    case CRead =>
    case CCloseGoR =>
    case CExec =>
    case CProgram =>
  }

  lemma {:induction false} RunsAreShort(run: seq<State>, n: nat)
    requires IsRun(run) && n < |run|
    ensures n + Left(run[n]) <= 20
  {
    if n > 0 {
      RunsAreShort(run, n - 1);
      assert Step(run[n - 1], run[n]);
      var a :| Enabled(run[n - 1], a) && run[n] == Next(run[n - 1], a);
      StepsRunOut(run[n - 1], a);
    }
  }

  /** ... and until the parent is done one of the two can move by itself: neither ever
      waits on a pipe for ever. */
  lemma NeverStuck(run: seq<State>, n: nat) returns (a: Act)
    requires IsRun(run) && n < |run| && !run[n].parent.PDone?
    ensures !a.Kill? && Enabled(run[n], a)
  {
    RunInv(run, n);
    var s := run[n];
    a := if Enabled(s, ParentStep(true)) then ParentStep(true) else ChildStep(true, 0);
  }

  /** A child that waits to be told is always answered: it is told, or finds nobody
      left to tell it, once the parent has nothing else to do. */
  lemma ChildIsAnswered(run: seq<State>, n: nat)
    requires IsRun(run) && n < |run| && run[n].child.CRead?
    requires run[n].parent.PWaitFallback? || run[n].parent.PWaitStatus?
    ensures Enabled(run[n], ChildStep(true, 0))
    ensures run[n].go == (if run[n].parent.PWaitStatus? then ['K'] else [])
  {
    RunInv(run, n);
  }
}
