/**
  Builds that fail although nothing that was stored when they were planned is lost to
  other processes (osbuild/pipeline.py:610-693): why the trees of the plan must stay as
  well, and why the cache must have room for what the build itself commits.
 */
module BuildFailures {
  import opened Wrappers
  import opened Manifests
  import opened Trees
  import opened Builder
  import opened BuildPlan
  import Depsolve

  // Add the planned trees at every turn before that of `ps[i]`, then make `last`.
  function Hostile(ps: seq<Pipeline>, i: nat, added: map<string, Tree>, last: Change): (script: seq<Change>)
    requires i <= |ps|
    ensures |script| > 0
  {
    if i == 0 then [last]
    else (if ps[0].stages == [] then [] else [Change({}, added, 0)]) + Hostile(ps[1..], i - 1, added, last)
  }

  lemma {:induction false} HostileEvicts(ps: seq<Pipeline>, i: nat, added: map<string, Tree>, last: Change)
    requires i <= |ps|
    ensures Evictions(Hostile(ps, i, added, last)) == last.evicted
    ensures forall c :: c in Hostile(ps, i, added, last) ==> c == last || c.added == added
  {
    var script := Hostile(ps, i, added, last);
    if i > 0 {
      HostileEvicts(ps[1..], i - 1, added, last);
      var rest := Hostile(ps[1..], i - 1, added, last);
      if ps[0].stages != [] {
        assert script == [Change({}, added, 0)] + rest && script[1..] == rest;
      } else {
        assert script == rest;
      }
    } else {
      assert script[1..] == [];
    }
  }

  lemma {:induction false} HostileDooms(ps: seq<Pipeline>, i: nat, added: map<string, Tree>, last: Change)
    requires i < |ps| && last.added == map[] && Hopeless(ps[i], last.evicted)
    requires forall j :: 0 <= j < i ==> Keyed(ps[j], added)
    ensures Doomed(Hostile(ps, i, added, last), ps) == Some(Doom(ps[i], last.evicted))
  {
    assert last.evicted - last.added.Keys == last.evicted;
    if i > 0 {
      HostileDooms(ps[1..], i - 1, added, last);
      var rest := Hostile(ps[1..], i - 1, added, last);
      if ps[0].stages != [] {
        assert Hostile(ps, i, added, last) == [Change({}, added, 0)] + rest;
        assert ([Change({}, added, 0)] + rest)[1..] == rest;
      } else {
        assert Hostile(ps, i, added, last) == rest;
      }
    }
  }

  ghost predicate NoEmptyIds(m: Manifest) {
    forall p, k :: p in m.pipelines && 0 <= k < |p.stages| ==> p.stages[k].id != ""
  }

  // Everything planned, and the trees of `p`'s own stages, but for what was stored.
  function Unkept(p: Pipeline, planned: map<string, Tree>, stored: set<string>): set<string> {
    planned.Keys + (set k | 0 <= k < |p.stages| :: p.stages[k].id) - stored
  }

  lemma EvictedIsHopeless(p: Pipeline, planned: map<string, Tree>, stored: set<string>, id: string)
    requires p.stages != [] && (forall k :: 0 <= k < |p.stages| ==> p.stages[k].id != "")
    requires p.Id().value !in stored && Wants(p, stored, id) && id !in stored && id in planned
    ensures id in Unkept(p, planned, stored) && Hopeless(p, Unkept(p, planned, stored))
  {
    var gone := Unkept(p, planned, stored);
    assert id in gone && p.stages[|p.stages| - 1].id in gone;
    if !(p.HasBuild() && p.build.value == id) {
      var k :| TakesAt(p, stored, id, k);
      forall j | k <= j < |p.stages| ensures p.stages[j].id in gone {
        assert !Contains(stored, Some(p.stages[j].id));
      }
      assert DeprivedAt(p, k, gone);
    }
  }

  // A planned pipeline can be added under its id.
  ghost predicate Keyed(p: Pipeline, planned: map<string, Tree>) {
    p.Id().Some? ==> p.Id().value != "" && p.Id().value in planned
  }

  lemma PlanKeyed(m: Manifest, stored: set<string>, targets: seq<string>, names: seq<string>,
                  planned: map<string, Tree>)
    requires IsPlan(m, stored, targets, names) && RefsAreIds(m) && NoEmptyIds(m)
    requires forall x :: x in planned <==> Some(x) in Depsolve.PlanIds(m, names)
    ensures forall j :: 0 <= j < |names| ==> m.Get(names[j]).Some?
    ensures forall j :: 0 <= j < |names| ==> Keyed(Resolve(m, names)[j], planned)
  {
    forall j | 0 <= j < |names| ensures m.Get(names[j]).Some? && Keyed(m.Get(names[j]).value, planned) {
      EntryCovered(m, stored, targets, names, j);
      var p := m.Get(names[j]).value;
      if p.stages != [] {
        assert Depsolve.PlanIds(m, names)[j] == Some(p.Id().value);
      }
    }
  }

  // Others add the planned trees, and evict what `ps[i]` needs at its turn.
  function ScriptAgainst(ps: seq<Pipeline>, i: nat, planned: map<string, Tree>, stored: set<string>): seq<Change>
    requires i < |ps|
  {
    Hostile(ps, i, planned, Change(Unkept(ps[i], planned, stored), map[], 0))
  }

  lemma DoomAt(ps: seq<Pipeline>, i: nat, planned: map<string, Tree>, stored: set<string>, id: string)
    requires i < |ps| && forall j :: 0 <= j < i ==> Keyed(ps[j], planned)
    requires forall k :: 0 <= k < |ps[i].stages| ==> ps[i].stages[k].id != ""
    requires Wants(ps[i], stored, id) && id !in stored && id in planned && !Contains(stored, ps[i].Id())
    ensures var script := ScriptAgainst(ps, i, planned, stored);
      && Evictions(script) !! stored && (forall c :: c in script ==> c.added == map[] || c.added == planned)
      && var doom := Doomed(script, ps); doom.Some? && doom.value.p == ps[i] && id in doom.value.gone
  {
    var last := Change(Unkept(ps[i], planned, stored), map[], 0);
    HostileEvicts(ps, i, planned, last);
    EvictedIsHopeless(ps[i], planned, stored, id);
    HostileDooms(ps, i, planned, last);
  }

  lemma HonestScripts(D: Denotation, script: seq<Change>, planned: map<string, Tree>)
    requires Honest(D, planned) && forall c :: c in script ==> c.added == map[] || c.added == planned
    ensures HonestScript(D, script)
  {
  }

  // Build a plan on an unlimited cache.
  method BuildPlanned(run: Runner, ghost D: Denotation, m: Manifest, names: seq<string>, entries: map<string, Tree>,
                      script: seq<Change>, faults: seq<bool>, ghost targets: seq<string>)
    returns (r: Outcome)
    requires RefsAreIds(m) && forall p :: p in m.pipelines ==> Respects(run, D, p)
    requires IsPlan(m, entries.Keys, targets, names) && Honest(D, entries) && HonestScript(D, script)
    ensures forall j :: 0 <= j < |names| ==> m.Get(names[j]).Some?
    ensures var doom := Doomed(script, Resolve(m, names)); doom.Some? ==> Fails(r, doom.value)
    ensures faults == [] ==> !r.StageFailed?
  {
    var store := new ObjectStore(Cache(entries, 0, 0, script, []), -1, _ => 0, faults);
    r := BuildAll(store, run, D, m, names, entries.Keys, targets);
  }

  /** Keeping what was stored when the plan was made is not enough as soon as one
      pipeline of the plan needs another one.  The others may add every planned tree,
      so that all pipelines before that one are skipped, and evict the same trees
      again at its turn: it lacks a tree, or a stage fails before it is missed. */
  method KeepingStoredIsNotEnough(run: Runner, ghost D: Denotation, m: Manifest, entries: map<string, Tree>,
                                  faults: seq<bool>, ghost targets: seq<string>, names: seq<string>,
                                  planned: map<string, Tree>, i: nat, ghost id: string)
    returns (r: Outcome, script: seq<Change>)
    requires IsPlan(m, entries.Keys, targets, names) && RefsAreIds(m) && NoEmptyIds(m)
    requires forall p :: p in m.pipelines ==> Respects(run, D, p)
    requires Honest(D, entries) && Honest(D, planned)
    requires forall x :: x in planned <==> Some(x) in Depsolve.PlanIds(m, names)
    requires i < |names| && m.Get(names[i]).Some? && Wants(m.Get(names[i]).value, entries.Keys, id) && id !in entries
    ensures Evictions(script) !! entries.Keys && HonestScript(D, script)
    ensures Lacking(r) || (r.StageFailed? && faults != [])
    ensures var p := m.Get(names[i]).value; p.HasBuild() && p.build.value == id ==> r.NoBuildTree?
  {
    PlanKeyed(m, entries.Keys, targets, names, planned);
    EntryCovered(m, entries.Keys, targets, names, i);
    assert Some(id) in Depsolve.PlanIds(m, names) && Depsolve.Unstored(entries.Keys, m.Get(names[i]));
    script := ScriptAgainst(Resolve(m, names), i, planned, entries.Keys);
    DoomAt(Resolve(m, names), i, planned, entries.Keys, id);
    HonestScripts(D, script, planned);
    r := BuildPlanned(run, D, m, names, entries, script, faults, targets);
  }

  // "B" is built in the tree of "A".
  function Two(): (m: Manifest) {
    Manifest([Pipeline("A", None, [Stage("a", [], false)]), Pipeline("B", Some("a"), [Stage("b", [], false)])])
  }

  lemma TwoLookup()
    ensures var m := Two(); var a, b := m.pipelines[0], m.pipelines[1];
      && m.Get("A") == Some(a) && m.Get("B") == Some(b) && m.Get("a") == Some(a)
      && Depsolve.Needs(m, {}, a) == [] && Depsolve.Needs(m, {}, b) == [Some(a)]
  {
    var m := Two();
    var a, b := m.pipelines[0], m.pipelines[1];
    assert m.Valid();
    GetByName(m, a);
    GetByName(m, b);
    assert a.stages[..0] == [] && b.stages[..0] == [];
    assert Depsolve.StageNeeds(m, {}, a.stages) == m.Lookup([]) + [];
    assert Depsolve.StageNeeds(m, {}, b.stages) == m.Lookup([]) + [];
  }

  lemma TwoClosed()
    ensures var m := Two(); Depsolve.Closed(m, {}, ["B"], {m.pipelines[0], m.pipelines[1]})
    ensures Two().Lookup(["B"]) == [Some(Two().pipelines[1])]
  {
    TwoLookup();
  }

  lemma TwoReach(q: Option<Pipeline>)
    ensures var m := Two(); Depsolve.Reachable(m, {}, ["B"], q) <==>
      q == Some(m.pipelines[0]) || q == Some(m.pipelines[1])
  {
    TwoLookup();
    var m := Two();
    var a, b := m.pipelines[0], m.pipelines[1];
    TwoClosed();
    Depsolve.ReachTarget(m, {}, ["B"], Some(b));
    Depsolve.ReachNeed(m, {}, ["B"], b, Some(a));
    Depsolve.ReachableInClosed(m, {}, ["B"], {a, b});
  }

  lemma PairIsExact(m: Manifest, targets: seq<string>, first: string, second: string, a: Pipeline, b: Pipeline)
    requires m.Get(first) == Some(a) && m.Get(second) == Some(b) && a.Id() != b.Id()
    requires forall q :: Depsolve.Reachable(m, {}, targets, q) <==> q == Some(a) || q == Some(b)
    ensures Depsolve.Exact(m, {}, targets, [first, second]) && !Depsolve.MissingReachable(m, {}, targets)
  {
    var ids := Depsolve.PlanIds(m, [first, second]);
    assert ids[0] == a.Id() && ids[1] == b.Id();
  }

  lemma TwoExact()
    ensures Depsolve.Exact(Two(), {}, ["B"], ["A", "B"]) && !Depsolve.MissingReachable(Two(), {}, ["B"])
  {
    TwoLookup();
    var m := Two();
    forall q ensures Depsolve.Reachable(m, {}, ["B"], q) <==> q == Some(m.pipelines[0]) || q == Some(m.pipelines[1]) {
      TwoReach(q);
    }
    PairIsExact(m, ["B"], "A", "B", m.pipelines[0], m.pipelines[1]);
  }

  lemma TwoOrdered()
    ensures Depsolve.Ordered(Two(), {}, ["A", "B"])
  {
    TwoLookup();
    var m, names := Two(), ["A", "B"];
    var ids := Depsolve.PlanIds(m, names);
    forall i, q | 0 <= i < 2 && q in Depsolve.Needs(m, {}, m.Get(names[i]).value)
      ensures q.Some? && q.value.Id() in ids[..i]
    {
      assert i == 1 && q == Some(m.pipelines[0]);
      assert ids[..1][0] == Some("a");
    }
  }

  lemma TwoPlan()
    ensures IsPlan(Two(), {}, ["B"], ["A", "B"])
  {
    TwoExact();
    TwoOrdered();
  }

  lemma TwoRefs()
    ensures RefsAreIds(Two())
  {
    TwoLookup();
  }

  lemma TwoRespected(run: Runner) returns (D: Denotation)
    ensures forall p :: p in Two().pipelines ==> Respects(run, D, p)
    ensures Honest(D, map["a" := run("a", EMPTY, None, map[])])
  {
    var t := run("a", EMPTY, None, map[]);
    D := x => if x == "a" then t else run("b", EMPTY, Some(t), map[]);
    assert InputsOf(D, []) == map[];
    assert RespectsAt(run, D, Two().pipelines[0], 0) && RespectsAt(run, D, Two().pipelines[1], 0);
  }

  // Add the tree of "A", then evict it.
  function TwoScript(t: Tree): seq<Change> { [Change({}, map["a" := t], 0), Change({"a", "b"}, map[], 0)] }

  lemma TwoHonest(D: Denotation, t: Tree)
    requires Honest(D, map["a" := t])
    ensures Honest(D, map[]) && HonestScript(D, TwoScript(t))
  {
  }

  lemma TwoDoomed(t: Tree)
    ensures Doomed(TwoScript(t), Two().pipelines) == Some(Doom(Two().pipelines[1], {"a", "b"}))
  {
    var ps, last := Two().pipelines, Change({"a", "b"}, map[], 0);
    assert last.evicted - last.added.Keys == {"a", "b"} && Hopeless(ps[1], {"a", "b"});
    assert ps[1..] == [ps[1]] && Doomed([last], ps[1..]) == Some(Doom(ps[1], {"a", "b"}));
    assert TwoScript(t)[1..] == [last];
  }

  lemma TwoResolve()
    ensures forall i :: 0 <= i < 2 ==> Two().Get(["A", "B"][i]).Some?
    ensures Resolve(Two(), ["A", "B"]) == Two().pipelines
  {
    TwoLookup();
  }

  /** The plan for "B" is "A", "B", and nothing was stored.  Another process adds the
      tree of "A", which is skipped for that reason, and evicts it before the turn of
      "B", which then has no build tree. */
  method SkippedThenEvicted(run: Runner) returns (r: Outcome)
    ensures IsPlan(Two(), {}, ["B"], ["A", "B"])
    ensures r == NoBuildTree
  {
    var t := run("a", EMPTY, None, map[]);
    ghost var D := TwoRespected(run);
    TwoRefs();
    TwoPlan();
    TwoResolve();
    TwoHonest(D, t);
    TwoDoomed(t);
    var none: map<string, Tree> := map[];
    assert none.Keys == {};
    r := BuildPlanned(run, D, Two(), ["A", "B"], none, TwoScript(t), [], ["B"]);
  }

  // `b` is built in the tree of `a`; `c` has a checkpoint and needs neither.
  ghost predicate Shaped(m: Manifest, a: Pipeline, b: Pipeline, c: Pipeline) {
    && m.Valid() && m.pipelines == [a, b, c] && |a.stages| == |b.stages| == |c.stages| == 1
    && a.stages[0].deps == b.stages[0].deps == c.stages[0].deps == [] && c.stages[0].checkpoint
    && a.stages[0].id != "" && a.stages[0].id != b.stages[0].id && b.stages[0].id != c.stages[0].id
    && a.stages[0].id != c.stages[0].id
    && !a.HasBuild() && !c.HasBuild() && b.build == a.Id() && m.Get(b.build.value) == Some(a)
  }

  function Three(): (m: Manifest) {
    Manifest([
      Pipeline("A", None, [Stage("a", [], false)]),
      Pipeline("B", Some("a"), [Stage("b", [], false)]),
      Pipeline("C", None, [Stage("c", [], true)])])
  }

  lemma ThreeShaped()
    ensures var m := Three(); Shaped(m, m.pipelines[0], m.pipelines[1], m.pipelines[2])
  {
  }

  lemma NoDeps(m: Manifest, stored: set<string>, p: Pipeline)
    requires |p.stages| == 1 && p.stages[0].deps == []
    ensures Depsolve.StageNeeds(m, stored, p.stages) == []
  {
    assert p.stages[..0] == [] && m.Lookup(p.stages[0].deps) == [];
  }

  lemma ShapedNeeds(m: Manifest, a: Pipeline, b: Pipeline, c: Pipeline, stored: set<string>)
    requires Shaped(m, a, b, c)
    ensures m.Get(a.name) == Some(a) && m.Get(b.name) == Some(b) && m.Get(c.name) == Some(c) && RefsAreIds(m)
    ensures Depsolve.Needs(m, stored, a) == [] == Depsolve.Needs(m, stored, c)
    ensures Depsolve.Needs(m, stored, b) == [Some(a)]
  {
    GetByName(m, a);
    GetByName(m, b);
    GetByName(m, c);
    NoDeps(m, stored, a);
    NoDeps(m, stored, b);
    NoDeps(m, stored, c);
  }

  lemma AppendNew(order: seq<Depsolve.Item>, p: Pipeline)
    requires Depsolve.DistinctKeys(order) && forall i :: 0 <= i < |order| ==> order[i].key != p.Id()
    ensures Depsolve.MoveToEnd(order, p) == order + [Depsolve.Item(p.Id(), p)]
  {
  }

  lemma RoundOf(m: Manifest, stored: set<string>, check: seq<Option<Pipeline>>, order: seq<Depsolve.Item>, p: Pipeline)
    requires Depsolve.DistinctKeys(order)
    ensures Depsolve.Round(m, stored, Depsolve.State(check + [Some(p)], order)) == Some(
      if Contains(stored, p.Id()) then Depsolve.State(check, order)
      else Depsolve.State(check + Depsolve.Needs(m, stored, p), Depsolve.MoveToEnd(order, p)))
  {
    assert (check + [Some(p)])[..|check|] == check;
  }

  lemma ThreeRounds(m: Manifest, stored: set<string>, s0: Depsolve.State, s1: Depsolve.State, s2: Depsolve.State,
                    s3: Depsolve.State, n: nat)
    requires Depsolve.DistinctKeys(s0.order) && s0.check != [] && Depsolve.Round(m, stored, s0) == Some(s1)
    requires Depsolve.DistinctKeys(s1.order) && s1.check != [] && Depsolve.Round(m, stored, s1) == Some(s2)
    requires Depsolve.DistinctKeys(s2.order) && s2.check != [] && Depsolve.Round(m, stored, s2) == Some(s3)
    requires s3.check == [] && Depsolve.EndsWithin(m, stored, s0, n)
    ensures Depsolve.Rounds(m, stored, s0, n) == Some(s3)
  {
    assert n > 0 && Depsolve.Rounds(m, stored, s0, n) == Depsolve.Rounds(m, stored, s1, n - 1);
    assert n > 1 && Depsolve.Rounds(m, stored, s1, n - 1) == Depsolve.Rounds(m, stored, s2, n - 2);
    assert n > 2 && Depsolve.Rounds(m, stored, s2, n - 2) == Depsolve.Rounds(m, stored, s3, n - 3);
  }

  // The planner looks at `b`, at `a`, which is stored, and at `c`.
  lemma PlanOfThree(m: Manifest, stored: set<string>, targets: seq<string>, a: Pipeline, b: Pipeline, c: Pipeline,
                    n: nat, plan: seq<string>)
    requires m.Lookup(targets) == [Some(c), Some(b)] && Contains(stored, a.Id())
    requires !Contains(stored, b.Id()) && !Contains(stored, c.Id()) && b.Id() != c.Id()
    requires Depsolve.Needs(m, stored, b) == [Some(a)] && Depsolve.Needs(m, stored, c) == []
    requires Depsolve.Answers(m, stored, targets, n, Some(plan))
    ensures plan == [c.name, b.name]
  {
    var item := Depsolve.Item(b.Id(), b);
    var s0, s1 := Depsolve.State([Some(c)] + [Some(b)], []), Depsolve.State([Some(c)] + [Some(a)], [item]);
    var s2, s3 := Depsolve.State([Some(c)], [item]), Depsolve.State([], [item] + [Depsolve.Item(c.Id(), c)]);
    FirstRound(m, stored, a, b, c);
    RoundOf(m, stored, [Some(c)], [item], a);
    LastRound(m, stored, [item], c);
    assert s0 == Depsolve.Begin(m, targets);
    ThreeRounds(m, stored, s0, s1, s2, s3, n);
  }

  lemma FirstRound(m: Manifest, stored: set<string>, a: Pipeline, b: Pipeline, c: Pipeline)
    requires !Contains(stored, b.Id()) && Depsolve.Needs(m, stored, b) == [Some(a)]
    ensures Depsolve.Round(m, stored, Depsolve.State([Some(c)] + [Some(b)], []))
      == Some(Depsolve.State([Some(c)] + [Some(a)], [Depsolve.Item(b.Id(), b)]))
  {
    AppendNew([], b);
    RoundOf(m, stored, [Some(c)], [], b);
    assert [] + [Depsolve.Item(b.Id(), b)] == [Depsolve.Item(b.Id(), b)];
  }

  lemma LastRound(m: Manifest, stored: set<string>, order: seq<Depsolve.Item>, c: Pipeline)
    requires Depsolve.DistinctKeys(order) && forall i :: 0 <= i < |order| ==> order[i].key != c.Id()
    requires !Contains(stored, c.Id()) && Depsolve.Needs(m, stored, c) == []
    ensures Depsolve.Round(m, stored, Depsolve.State([Some(c)], order))
      == Some(Depsolve.State([], order + [Depsolve.Item(c.Id(), c)]))
  {
    AppendNew(order, c);
    RoundOf(m, stored, [], order, c);
    assert [] + [Some(c)] == [Some(c)];
  }

  lemma ThreeIds(m: Manifest, stored: set<string>, a: Pipeline, b: Pipeline, c: Pipeline)
    requires Shaped(m, a, b, c) && stored == {a.stages[0].id}
    ensures Contains(stored, a.Id()) && !Contains(stored, b.Id()) && !Contains(stored, c.Id()) && b.Id() != c.Id()
  {
  }

  lemma ThreePlanned(m: Manifest, stored: set<string>, a: Pipeline, b: Pipeline, c: Pipeline, plan: seq<string>)
    requires Shaped(m, a, b, c) && stored == {a.stages[0].id}
    requires exists n :: Depsolve.Answers(m, stored, [c.name, b.name], n, Some(plan))
    ensures plan == [c.name, b.name]
  {
    ThreeIds(m, stored, a, b, c);
    ShapedNeeds(m, a, b, c, stored);
    var targets := [c.name, b.name];
    var n :| Depsolve.Answers(m, stored, targets, n, Some(plan));
    assert m.Lookup(targets) == [Some(c), Some(b)];
    PlanOfThree(m, stored, targets, a, b, c, n, plan);
  }

  lemma ThreeComplete(m: Manifest, stored: set<string>, a: Pipeline, b: Pipeline, c: Pipeline)
    requires Shaped(m, a, b, c) && stored == {a.stages[0].id}
    ensures !Depsolve.MissingReachable(m, stored, [c.name, b.name])
  {
    ShapedNeeds(m, a, b, c, stored);
    Depsolve.ReachableInClosed(m, stored, [c.name, b.name], {b, c});
  }

  lemma ThreeBackward(m: Manifest, a: Pipeline, b: Pipeline, c: Pipeline)
    requires Shaped(m, a, b, c)
    ensures forall i, q :: 0 <= i < |m.pipelines| && Some(q) in Depsolve.Needs(m, {}, m.pipelines[i]) ==>
      q in m.pipelines[..i]
  {
    ShapedNeeds(m, a, b, c, {});
    assert m.pipelines[..1][0] == a;
  }

  lemma ThreeAcyclic(m: Manifest, stored: set<string>, targets: seq<string>, a: Pipeline, b: Pipeline, c: Pipeline)
    returns (rank: Pipeline -> nat)
    requires Shaped(m, a, b, c)
    ensures Depsolve.Acyclic(m, stored, Depsolve.ReachableSet(m, stored, targets), rank)
  {
    rank := (p: Pipeline) => if p == a then 0 else if p == b then 1 else 2;
    ThreeBackward(m, a, b, c);
    Depsolve.EarlierIsAcyclic(m, stored, targets, rank);
  }

  method PlanThree(m: Manifest, stored: set<string>, a: Pipeline, b: Pipeline, c: Pipeline) returns (plan: seq<string>)
    requires Shaped(m, a, b, c) && stored == {a.stages[0].id}
    ensures plan == [c.name, b.name] && IsPlan(m, stored, [c.name, b.name], plan)
  {
    ghost var rank := ThreeAcyclic(m, stored, [c.name, b.name], a, b, c);
    ThreeComplete(m, stored, a, b, c);
    var r := Depsolve.Depsolve(m, stored, [c.name, b.name], rank);
    plan := r.value;
    ThreePlanned(m, stored, a, b, c, plan);
  }

  lemma ThreeRespected(run: Runner, m: Manifest, a: Pipeline, b: Pipeline, c: Pipeline) returns (D: Denotation)
    requires Shaped(m, a, b, c)
    ensures forall p :: p in m.pipelines ==> Respects(run, D, p)
    ensures D(a.stages[0].id) == run(a.stages[0].id, EMPTY, None, map[])
  {
    var t := run(a.stages[0].id, EMPTY, None, map[]);
    D := x => run(x, EMPTY, if x == b.stages[0].id then Some(t) else None, map[]);
    assert InputsOf(D, []) == map[];
    assert RespectsAt(run, D, a, 0) && RespectsAt(run, D, b, 0) && RespectsAt(run, D, c, 0);
  }

  // Trees of size 6 and a limit of 10: there is room for one tree, that of `id`.
  ghost predicate Tight(store: ObjectStore, id: string)
    reads store
  {
    && store.limit == 10 && (forall t :: store.weigh(t) == 6) && store.faults == [] && store.spare < 0
    && store.cache.entries.Keys == {id} && store.floating.Keys == {}
    && store.cache.mine == 0 && store.cache.others == 6 && store.cache.script == [] && store.cache.purges == [{id}]
  }

  method TightStore(run: Runner, ghost D: Denotation, id: string) returns (store: ObjectStore)
    requires D(id) == run(id, EMPTY, None, map[])
    ensures fresh(store) && store.Valid(D) && Tight(store, id)
  {
    var cache := Cache(map[id := run(id, EMPTY, None, map[])], 0, 6, [], [{id}]);
    store := new ObjectStore(cache, 10, _ => 6, []);
    assert Honest(D, cache.entries) && HonestScript(D, cache.script);
  }

  lemma ThreeCornered(store: ObjectStore, D: Denotation, m: Manifest, a: Pipeline, b: Pipeline, c: Pipeline)
    requires Shaped(m, a, b, c) && Tight(store, a.stages[0].id)
    ensures ToCorner(store, D, [c, b], store.floating.Keys, store.cache)
  {
    assert Builder.Ids(c, 0) == {} && Builder.Ids(c, 1) == {c.stages[0].id};
  }

  // What `BuildAll` says of such a plan.
  method BuildToCorner(store: ObjectStore, run: Runner, ghost D: Denotation, m: Manifest, names: seq<string>,
                       ghost stored: set<string>, ghost targets: seq<string>, ghost ps: seq<Pipeline>)
    returns (r: Outcome)
    requires store.Valid(D) && RefsAreIds(m) && forall p :: p in m.pipelines ==> Respects(run, D, p)
    requires IsPlan(m, stored, targets, names) && forall id :: id in stored ==> store.Visible(id)
    requires |ps| == |names| && forall i :: 0 <= i < |names| ==> m.Get(names[i]) == Some(ps[i])
    requires store.faults == [] && ToCorner(store, D, ps, store.floating.Keys, store.cache)
    modifies store
    ensures r == NoBuildTree
  {
    assert Resolve(m, names) == ps;
    r := BuildAll(store, run, D, m, names, stored, targets);
  }

  lemma ThreeFound(store: ObjectStore, m: Manifest, a: Pipeline, b: Pipeline, c: Pipeline, names: seq<string>)
    requires Shaped(m, a, b, c) && Tight(store, a.stages[0].id) && names == [c.name, b.name]
    ensures RefsAreIds(m) && forall id :: id in {a.stages[0].id} ==> store.Visible(id)
    ensures forall i :: 0 <= i < |names| ==> m.Get(names[i]) == Some([c, b][i])
  {
    ShapedNeeds(m, a, b, c, {});
    assert a.stages[0].id in store.cache.entries.Keys;
  }

  method BuildThree(store: ObjectStore, run: Runner, ghost D: Denotation, m: Manifest, names: seq<string>,
                    ghost a: Pipeline, ghost b: Pipeline, ghost c: Pipeline)
    returns (r: Outcome)
    requires Shaped(m, a, b, c) && Tight(store, a.stages[0].id) && names == [c.name, b.name]
    requires store.Valid(D) && forall p :: p in m.pipelines ==> Respects(run, D, p)
    requires IsPlan(m, {a.stages[0].id}, names, names)
    modifies store
    ensures r == NoBuildTree
  {
    ThreeFound(store, m, a, b, c, names);
    ThreeCornered(store, D, m, a, b, c);
    r := BuildToCorner(store, run, D, m, names, {a.stages[0].id}, names, [c, b]);
  }

  method RunThree(run: Runner, m: Manifest, a: Pipeline, b: Pipeline, c: Pipeline)
    returns (plan: seq<string>, r: Outcome)
    requires Shaped(m, a, b, c)
    ensures plan == [c.name, b.name] && r == NoBuildTree
  {
    ghost var D := ThreeRespected(run, m, a, b, c);
    plan := PlanThree(m, {a.stages[0].id}, a, b, c);
    var store := TightStore(run, D, a.stages[0].id);
    r := BuildThree(store, run, D, m, plan, a, b, c);
  }

  /** Nobody else is at work, and "A" is stored when "C" and "B" are planned.  The cache
      has room for one tree.  The plan is "C", "B"; storing the checkpoint of "C" evicts
      the tree of "A", and then "B" has no build tree. */
  method EvictedByOwnCommit(run: Runner) returns (plan: seq<string>, r: Outcome)
    ensures plan == ["C", "B"] && r == NoBuildTree
  {
    ThreeShaped();
    var m := Three();
    plan, r := RunThree(run, m, m.pipelines[0], m.pipelines[1], m.pipelines[2]);
  }

  /** A build that succeeds can take away a tree that was stored, such as that of another
      target: building "C" alone, which evicts the tree of "A". */
  method StoredTreeEvicted(run: Runner) returns (r: Outcome, store: ObjectStore)
    ensures r == Built && store.Visible("c") && !store.Visible("a")
  {
    ThreeShaped();
    var ps := Three().pipelines;
    ghost var D := ThreeRespected(run, Three(), ps[0], ps[1], ps[2]);
    store := TightStore(run, D, "a");
    r := BuildGreedy(store, run, D, ps[2], "a");
  }

  method BuildGreedy(store: ObjectStore, run: Runner, ghost D: Denotation, c: Pipeline, ghost id: string)
    returns (r: Outcome)
    requires store.Valid(D) && Tight(store, id) && Respects(run, D, c)
    requires |c.stages| == 1 && c.stages[0].checkpoint && c.stages[0].deps == [] && !c.HasBuild()
    requires c.stages[0].id != id
    modifies store
    ensures r == Built && store.Visible(c.stages[0].id) && !store.Visible(id)
  {
    assert Builder.Ids(c, 0) == {} && Builder.Ids(c, 1) == {c.stages[0].id};
    ghost var was := store.cache;
    assert Overflows(store, D, c, was) && EndsMarked(c);
    r := BuildStages(store, run, D, c);
    assert id in was.purges[0] - Builder.Ids(c, |c.stages|);
    assert store.floating.Keys == {c.stages[0].id};
  }
}
