/**
  A run in which a load finds an incomplete entry: one process stores "k" (ten bytes,
  the limit), a second one needs room for "j", begins to evict "k", and dies after the
  first data file; a third one loads "k".  The exception in CacheLoads is needed.
 */
module CacheWitness {
  import opened Wrappers
  import opened CacheEntries

  const NEW := Dir(true, None, NoData)
  const HALF := Dir(true, None, Partial)
  const BARE := Dir(true, None, Complete(7, 10))
  const FULL := Dir(true, Some(10), Complete(7, 10))
  const MINE := Dir(true, None, Complete(1, 5))
  const BOTH: map<Name, Id> := map[Named("k") := 0, Uuid(1) := 1]
  const IDLE := Walk(Uuid(0), 0, 0, [], 0, 0, 0, false)
  const TAKEN := Walk(Named("k"), 0, 0, [], 0, 0, 0, false)
  const CHOSEN := Walk(Named("k"), 0, 0, [], 0, 10, 0, true)
  const GONE := Walk(Named("k"), 0, 0, [], 0, 10, 10, true)

  // The first store on its own.
  ghost function First(st: Stage, own: Own, names: map<Name, Id>, dir: Dir, size: int): Cache {
    Cache(names, map[0 := dir], map[0 := 0], {}, map[0 := 0], size, 10, map[0 := Proc(st, own, IDLE)],
      1, map[], {}, 0, false)
  }

  // The second one; `dir` is the entry of "k", `mine` its own.
  ghost function Second(st: Stage, own: Own, w: Walk, names: map<Name, Id>, dir: Dir, mine: Dir,
                        locks: map<Id, Pid>): Cache
  {
    Cache(names, map[0 := dir, 1 := mine], locks, {}, map[0 := 0, 1 := 0], 10, 10, map[1 := Proc(st, own, w)],
      2, map[0 := Commit("k", 7, 10)], {}, 0, false)
  }

  // The load, after the second store has died.
  ghost function Third(st: Stage, readers: set<(Id, Pid)>, stamp: nat): Cache {
    Cache(BOTH, map[0 := HALF, 1 := MINE], map[], readers, map[0 := stamp, 1 := 0], 10, 10,
      map[1 := Proc(Stage.Dead, Own("j", 1, 1, 5), GONE), 2 := Proc(st, Own("k", 0, 0, 0), TAKEN)],
      2, map[0 := Commit("k", 7, 10)], {0}, 10, false)
  }

  ghost predicate Follows(s: Cache, p: Pid, ev: Event, s': Cache) {
    Enabled(s, p, ev) && Next(s, p, ev) == s'
  }

  ghost predicate Does(s: Cache, p: Pid, ev: Event, e: Effect) {
    Enabled(s, p, ev) && p in s.procs && EffectOf(s, s.procs[p], ev) == e
  }

  // The states, and how each follows from the one before.
  ghost function S0(): Cache { Cache(map[], map[], map[], {}, map[], 0, 10, map[], 0, map[], {}, 0, false) }
  ghost function S1(): Cache { First(Stage.SMkdir, Own("k", 0, 0, 0), map[], EMPTY, 0) }
  ghost function S2(): Cache { First(Stage.SLink, Own("k", 0, 0, 0), map[Uuid(0) := 0], EMPTY, 0) }
  ghost function S3(): Cache { First(Stage.SMkdata, Own("k", 0, 0, 0), map[Uuid(0) := 0], NEW, 0) }
  ghost function S4(): Cache { First(Stage.SFill, Own("k", 0, 0, 0), map[Uuid(0) := 0], HALF, 0) }
  ghost function S5(): Cache { First(Stage.SFilled, Own("k", 0, 7, 10), map[Uuid(0) := 0], BARE, 0) }
  ghost function S6(): Cache { First(Stage.SAccounted, Own("k", 0, 7, 10), map[Uuid(0) := 0], BARE, 10) }
  ghost function S7(): Cache { First(Stage.SInfo, Own("k", 0, 7, 10), map[Uuid(0) := 0], FULL, 10) }
  ghost function S8(): Cache {
    First(Stage.SUnlock, Own("k", 0, 7, 10), map[Named("k") := 0], FULL, 10).(commits := map[0 := Commit("k", 7, 10)])
  }
  ghost function S9(): Cache {
    Cache(map[Named("k") := 0], map[0 := FULL], map[], {}, map[0 := 0], 10, 10, map[], 1, map[0 := Commit("k",
      7, 10)], {}, 0, false)
  }
  ghost function S10(): Cache {
    Second(Stage.SMkdir, Own("j", 1, 0, 0), IDLE, map[Named("k") := 0], FULL, EMPTY, map[1 := 1])
  }
  ghost function S11(): Cache { Second(Stage.SLink, Own("j", 1, 0, 0), IDLE, BOTH, FULL, EMPTY, map[1 := 1]) }
  ghost function S12(): Cache { Second(Stage.SMkdata, Own("j", 1, 0, 0), IDLE, BOTH, FULL, NEW, map[1 := 1]) }
  ghost function S13(): Cache { Second(Stage.SFill, Own("j", 1, 0, 0), IDLE, BOTH, FULL, HALF, map[1 := 1]) }
  ghost function S14(): Cache { Second(Stage.SFilled, Own("j", 1, 1, 5), IDLE, BOTH, FULL, MINE, map[1 := 1]) }
  ghost function S15(): Cache { Second(Stage.LList, Own("j", 1, 1, 5), IDLE, BOTH, FULL, MINE, map[1 := 1]) }
  ghost function S16(): Cache { Second(Stage.LOpen, Own("j", 1, 1, 5), TAKEN, BOTH, FULL, MINE, map[1 := 1]) }
  ghost function S17(): Cache { Second(Stage.LLock, Own("j", 1, 1, 5), TAKEN, BOTH, FULL, MINE, map[1 := 1]) }
  ghost function S18(): Cache { Second(Stage.LStat, Own("j", 1, 1, 5), TAKEN, BOTH, FULL, MINE, map[0 := 1, 1 := 1]) }
  ghost function S19(): Cache {
    Second(Stage.LCompare, Own("j", 1, 1, 5), TAKEN, BOTH, FULL, MINE, map[0 := 1, 1 := 1])
  }
  ghost function S20(): Cache {
    Second(Stage.LMeasure, Own("j", 1, 1, 5), TAKEN, BOTH, FULL, MINE, map[0 := 1, 1 := 1])
  }
  ghost function S21(): Cache { Second(Stage.RInfo, Own("j", 1, 1, 5), CHOSEN, BOTH, FULL, MINE, map[0 := 1, 1 := 1]) }
  ghost function S22(): Cache { Second(Stage.RScan, Own("j", 1, 1, 5), GONE, BOTH, BARE, MINE, map[0 := 1, 1 := 1]) }
  ghost function S23(): Cache { Second(Stage.RData, Own("j", 1, 1, 5), GONE, BOTH, HALF, MINE, map[0 := 1, 1 := 1]) }
  ghost function S24(): Cache {
    Second(Stage.Dead, Own("j", 1, 1, 5), GONE, BOTH, HALF, MINE, map[]).(broken := {0}, lost := 10)
  }
  ghost function S25(): Cache { Third(Stage.DOpen, {}, 0) }
  ghost function S26(): Cache { Third(Stage.DLock, {}, 0) }
  ghost function S27(): Cache { Third(Stage.DStat, {(0, 2)}, 0) }
  ghost function S28(): Cache { Third(Stage.DTouch, {(0, 2)}, 0) }
  ghost function S29(): Cache { Third(Stage.DHold, {(0, 2)}, 1) }

  lemma Step0() ensures Follows(S0(), 0, Store("k"), S1()) { assert Enabled(S0(), 0, Store("k")); }
  lemma Step1() ensures Follows(S1(), 0, Run, S2()) { assert Enabled(S1(), 0, Run); }
  lemma Step2() ensures Follows(S2(), 0, Run, S3()) { assert Enabled(S2(), 0, Run); }
  lemma Step3() ensures Follows(S3(), 0, Run, S4()) { assert Enabled(S3(), 0, Run); }
  lemma Step4() ensures Follows(S4(), 0, Filled(7, 10), S5()) { assert Enabled(S4(), 0, Filled(7, 10)); }
  lemma Step5() ensures Follows(S5(), 0, Run, S6()) { assert Enabled(S5(), 0, Run); }
  lemma Step6() ensures Follows(S6(), 0, Run, S7()) { assert Enabled(S6(), 0, Run); }
  lemma Step7() ensures Follows(S7(), 0, Run, S8()) { assert Enabled(S7(), 0, Run); }
  lemma Effect8() ensures Does(S8(), 0, Run, Quiet(S8(), S8().procs[0]).(proc := None, lock := Drop(0))) {}
  lemma Step8() ensures Follows(S8(), 0, Run, S9()) { Effect8(); }
  lemma Step9() ensures Follows(S9(), 1, Store("j"), S10()) { assert Enabled(S9(), 1, Store("j")); }
  lemma Effect10() ensures Does(S10(), 1, Run, Quiet(S10(), S11().procs[1]).(name := Bind(1))) {}
  lemma Step10() ensures Follows(S10(), 1, Run, S11()) { Effect10(); }
  lemma Effect11() ensures Does(S11(), 1, Run, Quiet(S11(), S12().procs[1]).(dir := Write(1, NEW))) {}
  lemma Step11() ensures Follows(S11(), 1, Run, S12()) { Effect11(); }
  lemma Effect12() ensures Does(S12(), 1, Run, Quiet(S12(), S13().procs[1]).(dir := Write(1, HALF))) {}
  lemma Step12() ensures Follows(S12(), 1, Run, S13()) { Effect12(); }
  lemma Effect13() ensures Does(S13(), 1, Filled(1, 5), Quiet(S13(), S14().procs[1]).(dir := Write(1, MINE))) {}
  lemma Step13() ensures Follows(S13(), 1, Filled(1, 5), S14()) { Effect13(); }
  lemma Effect14() ensures Does(S14(), 1, Run, Quiet(S14(), S15().procs[1])) {}
  lemma Step14() ensures Follows(S14(), 1, Run, S15()) { Effect14(); }
  lemma Effect15()
    ensures Does(S15(), 1, Listing([Candidate(Named("k"), 0)]), Quiet(S15(), S16().procs[1]))
  {
    assert [Candidate(Named("k"), 0)][1..] == [];
  }
  lemma Step15() ensures Follows(S15(), 1, Listing([Candidate(Named("k"), 0)]), S16()) { Effect15(); }
  lemma Effect16() ensures Does(S16(), 1, Run, Quiet(S16(), S17().procs[1])) {}
  lemma Step16() ensures Follows(S16(), 1, Run, S17()) { Effect16(); }
  lemma Effect17() ensures Does(S17(), 1, Run, Quiet(S17(), S18().procs[1]).(lock := Take(0))) {}
  lemma Step17() ensures Follows(S17(), 1, Run, S18()) { Effect17(); }
  lemma Effect18() ensures Does(S18(), 1, Run, Quiet(S18(), S19().procs[1])) {}
  lemma Step18() ensures Follows(S18(), 1, Run, S19()) { Effect18(); }
  lemma Effect19() ensures Does(S19(), 1, Run, Quiet(S19(), S20().procs[1])) {}
  lemma Step19() ensures Follows(S19(), 1, Run, S20()) { Effect19(); }
  lemma Effect20() ensures Does(S20(), 1, Measured(0), Quiet(S20(), S21().procs[1])) {}
  lemma Step20() ensures Follows(S20(), 1, Measured(0), S21()) { Effect20(); }
  lemma Effect21() ensures Does(S21(), 1, Run, Quiet(S21(), S22().procs[1]).(dir := Write(0, BARE))) {}
  lemma Step21() ensures Follows(S21(), 1, Run, S22()) { Effect21(); }
  lemma Effect22() ensures Does(S22(), 1, Run, Quiet(S22(), S23().procs[1]).(dir := Write(0, HALF))) {}
  lemma Step22() ensures Follows(S22(), 1, Run, S23()) { Effect22(); }
  lemma Effect23()
    ensures Does(S23(), 1, Crash, Quiet(S23(), S24().procs[1]).(lock := DropAll, lost := 10, broke := {0}))
  {
  }
  lemma Step23() ensures Follows(S23(), 1, Crash, S24()) { Effect23(); }
  lemma Step24() ensures Follows(S24(), 2, Load("k"), S25()) { assert Enabled(S24(), 2, Load("k")); }
  lemma Effect25() ensures Does(S25(), 2, Run, Quiet(S25(), S26().procs[2])) {}
  lemma Step25() ensures Follows(S25(), 2, Run, S26()) { Effect25(); }
  lemma Effect26() ensures Does(S26(), 2, Run, Quiet(S26(), S27().procs[2]).(lock := TakeRead(0))) {}
  lemma Step26() ensures Follows(S26(), 2, Run, S27()) { Effect26(); }
  lemma Effect27() ensures Does(S27(), 2, Run, Quiet(S27(), S28().procs[2])) {}
  lemma Step27() ensures Follows(S27(), 2, Run, S28()) { Effect27(); }
  lemma Effect28() ensures Does(S28(), 2, Clock(1), Quiet(S28(), S29().procs[2]).(dir := Touch(0, 1))) {}
  lemma Step28() ensures Follows(S28(), 2, Clock(1), S29()) { Effect28(); }

  // A run can be prolonged by one step.
  lemma Longer(run: seq<Cache>, p: Pid, ev: Event, s': Cache) returns (run': seq<Cache>)
    requires IsRun(run) && Follows(run[|run| - 1], p, ev, s')
    ensures IsRun(run') && run'[|run'| - 1] == s'
  {
    run' := run + [s'];
    forall i | 0 <= i < |run'| - 1 ensures Step(run'[i], run'[i + 1]) {
      assert i < |run| - 1 ==> Step(run[i], run[i + 1]);
    }
  }

  lemma FirstStore() returns (run: seq<Cache>)
    ensures IsRun(run) && run[|run| - 1] == S9()
  {
    run := [S0()];
    Step0(); run := Longer(run, 0, Store("k"), S1());
    Step1(); run := Longer(run, 0, Run, S2());
    Step2(); run := Longer(run, 0, Run, S3());
    Step3(); run := Longer(run, 0, Run, S4());
    Step4(); run := Longer(run, 0, Filled(7, 10), S5());
    Step5(); run := Longer(run, 0, Run, S6());
    Step6(); run := Longer(run, 0, Run, S7());
    Step7(); run := Longer(run, 0, Run, S8());
    Step8(); run := Longer(run, 0, Run, S9());
  }

  lemma SecondStore() returns (run: seq<Cache>)
    ensures IsRun(run) && run[|run| - 1] == S17()
  {
    run := FirstStore();
    Step9(); run := Longer(run, 1, Store("j"), S10());
    Step10(); run := Longer(run, 1, Run, S11());
    Step11(); run := Longer(run, 1, Run, S12());
    Step12(); run := Longer(run, 1, Run, S13());
    Step13(); run := Longer(run, 1, Filled(1, 5), S14());
    Step14(); run := Longer(run, 1, Run, S15());
    Step15(); run := Longer(run, 1, Listing([Candidate(Named("k"), 0)]), S16());
    Step16(); run := Longer(run, 1, Run, S17());
  }

  lemma Evicted() returns (run: seq<Cache>)
    ensures IsRun(run) && run[|run| - 1] == S24()
  {
    run := SecondStore();
    Step17(); run := Longer(run, 1, Run, S18());
    Step18(); run := Longer(run, 1, Run, S19());
    Step19(); run := Longer(run, 1, Run, S20());
    Step20(); run := Longer(run, 1, Measured(0), S21());
    Step21(); run := Longer(run, 1, Run, S22());
    Step22(); run := Longer(run, 1, Run, S23());
    Step23(); run := Longer(run, 1, Crash, S24());
  }

  lemma Loaded() returns (run: seq<Cache>)
    ensures IsRun(run) && run[|run| - 1] == S29()
  {
    run := Evicted();
    Step24(); run := Longer(run, 2, Load("k"), S25());
    Step25(); run := Longer(run, 2, Run, S26());
    Step26(); run := Longer(run, 2, Run, S27());
    Step27(); run := Longer(run, 2, Run, S28());
    Step28(); run := Longer(run, 2, Clock(1), S29());
  }

  /** A load can find an incomplete entry under a name somebody committed: its remover
      died between deleting the first data file and the lock file. */
  lemma LoadCanSeeTornData() returns (run: seq<Cache>)
    ensures IsRun(run)
    ensures var s := run[|run| - 1];
      && 2 in s.procs && s.procs[2].st.DHold? && Named(s.procs[2].own.key) in s.names
      && var x := s.names[Named(s.procs[2].own.key)];
        x in s.commits && x in s.dirs && s.dirs[x].lock && s.dirs[x].data == Partial
  {
    run := Loaded();
  }
}
