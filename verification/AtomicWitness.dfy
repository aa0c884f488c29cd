/**
  A run in which a negative size update is refused: one process adds ten bytes under a
  limit of ten, another takes one byte away under a limit of five.
 */
module AtomicWitness {
  import opened Wrappers
  import opened AtomicFile

  const ADD := Resize(10, 10)
  const TAKE := Resize(-1, 5)
  const ZERO := Number(0)
  const FULL := Number(10)
  const BEFORE: map<Inode, Option<Value>> := map[0 := Some(ZERO)]
  const AFTER: map<Inode, Option<Value>> := map[0 := Some(ZERO), 1 := Some(FULL)]
  const TEN := Entry(0, 0, ADD, ZERO, FULL, true)
  const REFUSED := Entry(1, 1, TAKE, FULL, FULL, false)

  ghost predicate Follows(s: State, p: Pid, a: Act, s': State) {
    Enabled(s, p, a) && Next(s, p, a) == s'
  }

  // The states, and how each follows from the one before.
  ghost function S0(): State { State(0, BEFORE, map[], map[], 1, [], [], map[]) }
  ghost function S1(): State {
    State(0, BEFORE, map[], map[0 := PC(Opening, 0, ADD, 0, 0, ZERO, ZERO, 0, false)], 1, [ADD], [], map[])
  }
  ghost function S2(): State {
    State(0, BEFORE, map[], map[0 := PC(Opened, 0, ADD, 0, 0, ZERO, ZERO, 0, false)], 1, [ADD], [], map[])
  }
  ghost function S3(): State {
    State(0, BEFORE, map[0 := 0], map[0 := PC(Locked, 0, ADD, 0, 0, ZERO, ZERO, 0, false)], 1, [ADD], [], map[])
  }
  ghost function S4(): State {
    State(0, BEFORE, map[0 := 0], map[0 := PC(Inside, 0, ADD, 0, 0, ZERO, ZERO, 0, false)], 1, [ADD], [], map[])
  }
  ghost function S5(): State {
    State(0, BEFORE, map[0 := 0], map[0 := PC(Loaded, 0, ADD, 0, 0, ZERO, ZERO, 0, false)], 1, [ADD], [], map[])
  }
  ghost function S6(): State {
    State(0, map[0 := Some(ZERO), 1 := None], map[0 := 0, 1 := 0],
      map[0 := PC(Created, 0, ADD, 0, 0, ZERO, FULL, 1, false)], 2, [ADD], [], map[])
  }
  ghost function S7(): State {
    State(0, AFTER, map[0 := 0, 1 := 0],
      map[0 := PC(Written, 0, ADD, 0, 0, ZERO, FULL, 1, false)], 2, [ADD], [], map[])
  }
  ghost function S8(): State {
    State(1, AFTER, map[0 := 0, 1 := 0],
      map[0 := PC(Renamed, 0, ADD, 0, 0, ZERO, FULL, 1, false)], 2, [ADD], [TEN], map[])
  }
  ghost function S9(): State {
    State(1, AFTER, map[0 := 0], map[0 := PC(Releasing, 0, ADD, 0, 0, ZERO, FULL, 1, true)], 2, [ADD], [TEN], map[])
  }
  ghost function S10(): State { State(1, AFTER, map[], map[], 2, [ADD], [TEN], map[0 := true]) }
  ghost function S11(): State {
    State(1, AFTER, map[],
      map[1 := PC(Opening, 1, TAKE, 0, 0, ZERO, ZERO, 0, false)], 2, [ADD, TAKE], [TEN], map[0 := true])
  }
  ghost function S12(): State {
    State(1, AFTER, map[],
      map[1 := PC(Opened, 1, TAKE, 1, 1, ZERO, ZERO, 0, false)], 2, [ADD, TAKE], [TEN], map[0 := true])
  }
  ghost function S13(): State {
    State(1, AFTER, map[1 := 1],
      map[1 := PC(Locked, 1, TAKE, 1, 1, ZERO, ZERO, 0, false)], 2, [ADD, TAKE], [TEN], map[0 := true])
  }
  ghost function S14(): State {
    State(1, AFTER, map[1 := 1],
      map[1 := PC(Inside, 1, TAKE, 1, 1, ZERO, ZERO, 0, false)], 2, [ADD, TAKE], [TEN], map[0 := true])
  }
  ghost function S15(): State {
    State(1, AFTER, map[1 := 1],
      map[1 := PC(Loaded, 1, TAKE, 1, 1, FULL, ZERO, 0, false)], 2, [ADD, TAKE], [TEN], map[0 := true])
  }
  ghost function S16(): State {
    State(1, AFTER, map[1 := 1],
      map[1 := PC(Releasing, 1, TAKE, 1, 1, FULL, ZERO, 0, false)], 2, [ADD, TAKE], [TEN, REFUSED], map[0 := true])
  }
  ghost function S17(): State {
    State(1, AFTER, map[], map[], 2, [ADD, TAKE], [TEN, REFUSED], map[0 := true, 1 := false])
  }

  lemma Step0() ensures Follows(S0(), 0, Begin(ADD), S1()) { assert Enabled(S0(), 0, Begin(ADD)); }
  lemma Step1() ensures Follows(S1(), 0, Run, S2()) { assert Enabled(S1(), 0, Run); }
  lemma Step2() ensures Follows(S2(), 0, Run, S3()) { assert Enabled(S2(), 0, Run); }
  lemma Step3() ensures Follows(S3(), 0, Run, S4()) { assert Enabled(S3(), 0, Run); }
  lemma Step4() ensures Follows(S4(), 0, Run, S5()) { assert Enabled(S4(), 0, Run); }
  lemma Step5() ensures Follows(S5(), 0, Run, S6()) { assert Enabled(S5(), 0, Run); }
  lemma Step6() ensures Follows(S6(), 0, Run, S7()) { assert Enabled(S6(), 0, Run); }
  lemma Step7() ensures Follows(S7(), 0, Run, S8()) { assert Enabled(S7(), 0, Run); }
  lemma Step8() ensures Follows(S8(), 0, Run, S9()) { assert Enabled(S8(), 0, Run); }
  lemma Step9() ensures Follows(S9(), 0, Run, S10()) { assert Enabled(S9(), 0, Run); }
  lemma Step10() ensures Follows(S10(), 1, Begin(TAKE), S11()) { assert Enabled(S10(), 1, Begin(TAKE)); }
  lemma Step11() ensures Follows(S11(), 1, Run, S12()) { assert Enabled(S11(), 1, Run); }
  lemma Step12() ensures Follows(S12(), 1, Run, S13()) { assert Enabled(S12(), 1, Run); }
  lemma Step13() ensures Follows(S13(), 1, Run, S14()) { assert Enabled(S13(), 1, Run); }
  lemma Step14() ensures Follows(S14(), 1, Run, S15()) { assert Enabled(S14(), 1, Run); }
  lemma Step15() ensures Follows(S15(), 1, Run, S16()) { assert Enabled(S15(), 1, Run); }
  lemma Step16() ensures Follows(S16(), 1, Run, S17()) { assert Enabled(S16(), 1, Run); }

  // A run can be prolonged by one step.
  lemma Longer(init: Value, run: seq<State>, p: Pid, a: Act, s': State) returns (run': seq<State>)
    requires IsRun(init, run) && Follows(run[|run| - 1], p, a, s')
    ensures IsRun(init, run') && run'[|run'| - 1] == s'
  {
    run' := run + [s'];
    forall i | 0 <= i < |run'| - 1 ensures Step(run'[i], run'[i + 1]) {
      assert i < |run| - 1 ==> Step(run[i], run[i + 1]);
    }
  }

  lemma Added() returns (run: seq<State>)
    ensures IsRun(Number(0), run) && run[|run| - 1] == S10()
  {
    run := [S0()];
    Step0(); run := Longer(Number(0), run, 0, Begin(ADD), S1());
    Step1(); run := Longer(Number(0), run, 0, Run, S2());
    Step2(); run := Longer(Number(0), run, 0, Run, S3());
    Step3(); run := Longer(Number(0), run, 0, Run, S4());
    Step4(); run := Longer(Number(0), run, 0, Run, S5());
    Step5(); run := Longer(Number(0), run, 0, Run, S6());
    Step6(); run := Longer(Number(0), run, 0, Run, S7());
    Step7(); run := Longer(Number(0), run, 0, Run, S8());
    Step8(); run := Longer(Number(0), run, 0, Run, S9());
    Step9(); run := Longer(Number(0), run, 0, Run, S10());
  }

  /** A negative update can be refused, where the code says it always succeeds. */
  lemma NegativeCanBeRefused() returns (run: seq<State>)
    ensures IsRun(Number(0), run)
    ensures var s := run[|run| - 1];
      1 in s.results && !s.results[1] && 1 < |s.reqs| && s.reqs[1].Resize? && s.reqs[1].diff < 0
  {
    run := Added();
    Step10(); run := Longer(Number(0), run, 1, Begin(TAKE), S11());
    Step11(); run := Longer(Number(0), run, 1, Run, S12());
    Step12(); run := Longer(Number(0), run, 1, Run, S13());
    Step13(); run := Longer(Number(0), run, 1, Run, S14());
    Step14(); run := Longer(Number(0), run, 1, Run, S15());
    Step15(); run := Longer(Number(0), run, 1, Run, S16());
    Step16(); run := Longer(Number(0), run, 1, Run, S17());
  }
}
