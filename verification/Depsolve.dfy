/**
  The planner `Manifest.depsolve` (osbuild/pipeline.py:610-660): an explicit stack
  without a visited set, and an ordered result in which an entry moves to the end
  each time its pipeline is popped.
 */
module Depsolve {
  import opened Wrappers
  import opened Manifests

  // ------------------------------------------------------------- what is needed

  // The inputs of the stages after the last stored one, last stage first.
  function StageNeeds(m: Manifest, stored: set<string>, stages: seq<Stage>): seq<Option<Pipeline>> {
    if stages == [] || Contains(stored, Some(stages[|stages| - 1].id)) then []
    else m.Lookup(stages[|stages| - 1].deps) + StageNeeds(m, stored, stages[..|stages| - 1])
  }

  function Needs(m: Manifest, stored: set<string>, p: Pipeline): seq<Option<Pipeline>> {
    (if p.HasBuild() then [m.Get(p.build.value)] else []) + StageNeeds(m, stored, p.stages)
  }

  // No stage from `i` on is stored.
  ghost predicate MustRun(stored: set<string>, stages: seq<Stage>, i: int) {
    0 <= i < |stages| && forall k :: i <= k < |stages| ==> !Contains(stored, Some(stages[k].id))
  }

  ghost predicate TakenBy(m: Manifest, stored: set<string>, stages: seq<Stage>, q: Option<Pipeline>, i: int) {
    MustRun(stored, stages, i) && exists d :: d in stages[i].deps && m.Get(d) == q
  }

  // A pipeline is needed exactly as the build pipeline, or as an input of a stage
  // no stored stage lets us skip.
  lemma {:induction false} StageNeedsMeaning(m: Manifest, stored: set<string>, stages: seq<Stage>, q: Option<Pipeline>)
    ensures q in StageNeeds(m, stored, stages) <==> exists i :: TakenBy(m, stored, stages, q, i)
  {
    if i :| TakenBy(m, stored, stages, q, i) {
      TakenIsNeeded(m, stored, stages, q, i);
    }
    if q in StageNeeds(m, stored, stages) {
      var i := NeededIsTaken(m, stored, stages, q);
    }
  }

  lemma LookupHas(m: Manifest, deps: seq<string>, q: Option<Pipeline>)
    ensures q in m.Lookup(deps) <==> exists d :: d in deps && m.Get(d) == q
  {
    if d :| d in deps && m.Get(d) == q {
      var k :| 0 <= k < |deps| && deps[k] == d;
      assert m.Lookup(deps)[k] == q;
    }
    if q in m.Lookup(deps) {
      var k :| 0 <= k < |deps| && m.Lookup(deps)[k] == q;
      assert deps[k] in deps && m.Get(deps[k]) == q;
    }
  }

  lemma {:induction false} TakenIsNeeded(m: Manifest, stored: set<string>, stages: seq<Stage>, q: Option<Pipeline>,
                                         i: int)
    requires TakenBy(m, stored, stages, q, i)
    ensures q in StageNeeds(m, stored, stages)
  {
    var n := |stages| - 1;
    if i < n {
      assert TakenBy(m, stored, stages[..n], q, i);
      TakenIsNeeded(m, stored, stages[..n], q, i);
    } else {
      LookupHas(m, stages[n].deps, q);
    }
  }

  lemma {:induction false} NeededIsTaken(m: Manifest, stored: set<string>, stages: seq<Stage>, q: Option<Pipeline>)
    returns (i: int)
    requires q in StageNeeds(m, stored, stages)
    ensures TakenBy(m, stored, stages, q, i)
  {
    var n := |stages| - 1;
    if q in m.Lookup(stages[n].deps) {
      LookupHas(m, stages[n].deps, q);
      i := n;
    } else {
      i := NeededIsTaken(m, stored, stages[..n], q);
      assert MustRun(stored, stages, i);
    }
  }

  ghost predicate Unstored(stored: set<string>, q: Option<Pipeline>) {
    q.Some? && !Contains(stored, q.value.Id())
  }

  // ---------------------------------------------------------------- reachability

  // A chain of needs from a target; it passes through unstored pipelines only.
  ghost predicate IsPath(m: Manifest, stored: set<string>, targets: seq<string>, path: seq<Option<Pipeline>>) {
    && |path| > 0 && path[0] in m.Lookup(targets)
    && forall k :: 0 <= k < |path| - 1 ==> Unstored(stored, path[k]) && path[k + 1] in Needs(m, stored, path[k].value)
  }

  ghost predicate Reachable(m: Manifest, stored: set<string>, targets: seq<string>, q: Option<Pipeline>) {
    exists path :: IsPath(m, stored, targets, path) && path[|path| - 1] == q
  }

  lemma ReachTarget(m: Manifest, stored: set<string>, targets: seq<string>, q: Option<Pipeline>)
    requires q in m.Lookup(targets)
    ensures Reachable(m, stored, targets, q)
  {
    assert IsPath(m, stored, targets, [q]) && [q][|[q]| - 1] == q;
  }

  lemma ReachNeed(m: Manifest, stored: set<string>, targets: seq<string>, p: Pipeline, q: Option<Pipeline>)
    requires Reachable(m, stored, targets, Some(p)) && !Contains(stored, p.Id()) && q in Needs(m, stored, p)
    ensures Reachable(m, stored, targets, q)
  {
    var path :| IsPath(m, stored, targets, path) && path[|path| - 1] == Some(p);
    LongerPath(m, stored, targets, path, q);
  }

  lemma LongerPath(m: Manifest, stored: set<string>, targets: seq<string>, path: seq<Option<Pipeline>>,
                   q: Option<Pipeline>)
    requires IsPath(m, stored, targets, path) && Unstored(stored, path[|path| - 1])
    requires q in Needs(m, stored, path[|path| - 1].value)
    ensures IsPath(m, stored, targets, path + [q]) && Reachable(m, stored, targets, q)
  {
    var longer := path + [q];
    forall k | 0 <= k < |longer| - 1
      ensures Unstored(stored, longer[k]) && longer[k + 1] in Needs(m, stored, longer[k].value)
    {
      assert longer[k] == path[k];
      if k < |path| - 1 {
        assert longer[k + 1] == path[k + 1];
      }
    }
    assert longer[|longer| - 1] == q && longer[0] == path[0];
  }

  // Everything reachable, as a set that needs cannot leave.
  ghost predicate ClosedUnderNeeds(m: Manifest, stored: set<string>, reach: iset<Option<Pipeline>>) {
    forall p, q :: Some(p) in reach && !Contains(stored, p.Id()) && q in Needs(m, stored, p) ==> q in reach
  }

  ghost function ReachableSet(m: Manifest, stored: set<string>, targets: seq<string>): (reach: iset<Option<Pipeline>>)
    ensures forall q :: q in reach <==> Reachable(m, stored, targets, q)
    ensures ClosedUnderNeeds(m, stored, reach)
    ensures forall q :: q in m.Lookup(targets) ==> q in reach
  {
    forall p, q | Reachable(m, stored, targets, Some(p)) && !Contains(stored, p.Id()) && q in Needs(m, stored, p)
      ensures Reachable(m, stored, targets, q)
    {
      ReachNeed(m, stored, targets, p, q);
    }
    forall q | q in m.Lookup(targets) ensures Reachable(m, stored, targets, q) {
      ReachTarget(m, stored, targets, q);
    }
    iset q | Reachable(m, stored, targets, q)
  }

  // A set that holds the targets and the needs of its unstored members holds
  // everything reachable.
  ghost predicate Closed(m: Manifest, stored: set<string>, targets: seq<string>, s: set<Pipeline>) {
    && (forall q :: q in m.Lookup(targets) ==> Done(stored, s, q))
    && (forall p, q :: p in s && q in Needs(m, stored, p) ==> Done(stored, s, q))
  }

  ghost predicate Done(stored: set<string>, s: set<Pipeline>, q: Option<Pipeline>) {
    q.Some? && (Contains(stored, q.value.Id()) || q.value in s)
  }

  lemma {:induction false} PathInClosed(m: Manifest, stored: set<string>, targets: seq<string>, s: set<Pipeline>,
                                        path: seq<Option<Pipeline>>, k: nat)
    requires Closed(m, stored, targets, s) && IsPath(m, stored, targets, path) && k < |path|
    ensures Done(stored, s, path[k])
  {
    if k > 0 {
      PathInClosed(m, stored, targets, s, path, k - 1);
    }
  }

  lemma ReachableInClosed(m: Manifest, stored: set<string>, targets: seq<string>, s: set<Pipeline>)
    requires Closed(m, stored, targets, s)
    ensures forall q :: Reachable(m, stored, targets, q) ==> Done(stored, s, q)
  {
    forall q | Reachable(m, stored, targets, q) ensures Done(stored, s, q) {
      var path :| IsPath(m, stored, targets, path) && path[|path| - 1] == q;
      PathInClosed(m, stored, targets, s, path, |path| - 1);
    }
  }

  // ------------------------------------------------------------------ termination

  // `reach` holds the needs of its unstored members, which are below them.
  ghost predicate Acyclic(m: Manifest, stored: set<string>, reach: iset<Option<Pipeline>>, rank: Pipeline -> nat) {
    && ClosedUnderNeeds(m, stored, reach)
    && forall p, q :: Some(p) in reach && !Contains(stored, p.Id()) && Some(q) in Needs(m, stored, p) ==>
         rank(q) < rank(p)
  }

  lemma {:induction false} StageNeedsKnown(m: Manifest, stored: set<string>, stages: seq<Stage>, q: Pipeline)
    requires Some(q) in StageNeeds(m, stored, stages)
    ensures q in m.pipelines
  {
    if Some(q) !in m.Lookup(stages[|stages| - 1].deps) {
      StageNeedsKnown(m, stored, stages[..|stages| - 1], q);
    }
  }

  lemma NeedsKnown(m: Manifest, stored: set<string>, p: Pipeline)
    ensures forall q :: Some(q) in Needs(m, stored, p) ==> q in m.pipelines
  {
    forall q | Some(q) in Needs(m, stored, p) ensures q in m.pipelines {
      if Some(q) in StageNeeds(m, stored, p.stages) {
        StageNeedsKnown(m, stored, p.stages, q);
      }
    }
  }

  ghost predicate Within(items: seq<Option<Pipeline>>, reach: iset<Option<Pipeline>>) {
    forall q :: q in items ==> q in reach
  }

  // How many items popping `p` leads to, at most.
  ghost function Weight(m: Manifest, stored: set<string>, reach: iset<Option<Pipeline>>, rank: Pipeline -> nat,
                        p: Pipeline): (w: nat)
    requires Acyclic(m, stored, reach, rank) && Some(p) in reach
    ensures w >= 1
    decreases rank(p), |Needs(m, stored, p)| + 1
  {
    if Contains(stored, p.Id()) then 1 else 1 + Sum(m, stored, reach, rank, Needs(m, stored, p), rank(p))
  }

  ghost function Sum(m: Manifest, stored: set<string>, reach: iset<Option<Pipeline>>, rank: Pipeline -> nat,
                     items: seq<Option<Pipeline>>, bound: nat): nat
    requires Acyclic(m, stored, reach, rank) && Within(items, reach)
    requires forall q :: Some(q) in items ==> rank(q) < bound
    decreases bound, |items|
  {
    if items == [] then 0
    else
      var n := |items| - 1;
      assert items[n] in items;
      Sum(m, stored, reach, rank, items[..n], bound) +
      (if items[n].Some? then Weight(m, stored, reach, rank, items[n].value) else 1)
  }

  ghost predicate Known(m: Manifest, items: seq<Option<Pipeline>>) {
    forall q :: Some(q) in items ==> q in m.pipelines
  }

  ghost function Total(m: Manifest, stored: set<string>, reach: iset<Option<Pipeline>>, rank: Pipeline -> nat,
                       items: seq<Option<Pipeline>>): nat
    requires Acyclic(m, stored, reach, rank) && Within(items, reach)
  {
    if items == [] then 0
    else
      var n := |items| - 1;
      assert items[n] in items;
      Total(m, stored, reach, rank, items[..n]) +
      (if items[n].Some? then Weight(m, stored, reach, rank, items[n].value) else 1)
  }

  lemma {:induction false} SumIsTotal(m: Manifest, stored: set<string>, reach: iset<Option<Pipeline>>,
                                      rank: Pipeline -> nat, items: seq<Option<Pipeline>>, bound: nat)
    requires Acyclic(m, stored, reach, rank) && Within(items, reach)
    requires forall q :: Some(q) in items ==> rank(q) < bound
    ensures Sum(m, stored, reach, rank, items, bound) == Total(m, stored, reach, rank, items)
  {
    if items != [] {
      SumIsTotal(m, stored, reach, rank, items[..|items| - 1], bound);
    }
  }

  lemma {:induction false} TotalConcat(m: Manifest, stored: set<string>, reach: iset<Option<Pipeline>>,
                                       rank: Pipeline -> nat, a: seq<Option<Pipeline>>, b: seq<Option<Pipeline>>)
    requires Acyclic(m, stored, reach, rank) && Within(a, reach) && Within(b, reach)
    ensures Total(m, stored, reach, rank, a + b) == Total(m, stored, reach, rank, a) + Total(m, stored, reach, rank, b)
  {
    if b == [] {
      assert a + b == a;
    } else {
      var n := |b| - 1;
      assert (a + b)[..|a + b| - 1] == a + b[..n];
      TotalConcat(m, stored, reach, rank, a, b[..n]);
    }
  }

  /** A manifest whose references all lead to earlier pipelines is acyclic, whatever the
      targets are. */
  lemma EarlierIsAcyclic(m: Manifest, stored: set<string>, targets: seq<string>, rank: Pipeline -> nat)
    requires forall i :: 0 <= i < |m.pipelines| ==> rank(m.pipelines[i]) == i
    requires forall i, q :: 0 <= i < |m.pipelines| && Some(q) in Needs(m, {}, m.pipelines[i]) ==> q in m.pipelines[..i]
    ensures Acyclic(m, stored, ReachableSet(m, stored, targets), rank)
  {
    var reach := ReachableSet(m, stored, targets);
    forall p, q | Some(p) in reach && Some(q) in Needs(m, stored, p) ensures rank(q) < rank(p) {
      ReachableKnown(m, stored, targets, p);
      RankDrops(m, stored, rank, p, q);
    }
  }

  lemma RankDrops(m: Manifest, stored: set<string>, rank: Pipeline -> nat, p: Pipeline, q: Pipeline)
    requires forall i :: 0 <= i < |m.pipelines| ==> rank(m.pipelines[i]) == i
    requires forall i, q :: 0 <= i < |m.pipelines| && Some(q) in Needs(m, {}, m.pipelines[i]) ==> q in m.pipelines[..i]
    requires p in m.pipelines && Some(q) in Needs(m, stored, p)
    ensures rank(q) < rank(p)
  {
    var i :| 0 <= i < |m.pipelines| && m.pipelines[i] == p;
    FewerNeeds(m, stored, p.stages, Some(q));
    var j :| 0 <= j < i && m.pipelines[..i][j] == q;
  }

  lemma ReachableKnown(m: Manifest, stored: set<string>, targets: seq<string>, p: Pipeline)
    requires Reachable(m, stored, targets, Some(p))
    ensures p in m.pipelines
  {
    var path: seq<Option<Pipeline>> :| IsPath(m, stored, targets, path) && path[|path| - 1] == Some(p);
    var n := |path| - 1;
    if n == 0 {
      var k :| 0 <= k < |targets| && m.Lookup(targets)[k] == Some(p);
    } else {
      assert path[n - 1 + 1] in Needs(m, stored, path[n - 1].value);
      NeedsKnown(m, stored, path[n - 1].value);
    }
  }

  lemma {:induction false} FewerNeeds(m: Manifest, stored: set<string>, stages: seq<Stage>, q: Option<Pipeline>)
    ensures q in StageNeeds(m, stored, stages) ==> q in StageNeeds(m, {}, stages)
  {
    if stages != [] {
      FewerNeeds(m, stored, stages[..|stages| - 1], q);
    }
  }

  // --------------------------------------------------- the ordered result "set"

  datatype Item = Item(key: Option<string>, pl: Pipeline)

  ghost predicate DistinctKeys(order: seq<Item>) {
    forall i, j :: 0 <= i < j < |order| ==> order[i].key != order[j].key
  }

  function Find(order: seq<Item>, key: Option<string>): (k: nat)
    ensures k <= |order|
    ensures k < |order| ==> order[k].key == key
    ensures k == |order| ==> forall i :: 0 <= i < |order| ==> order[i].key != key
  {
    if order == [] then 0 else if order[0].key == key then 0 else 1 + Find(order[1..], key)
  }

  // Assign and `move_to_end`.
  function MoveToEnd(order: seq<Item>, pl: Pipeline): (r: seq<Item>)
    requires DistinctKeys(order)
    ensures DistinctKeys(r) && |r| > 0 && r[|r| - 1] == Item(pl.Id(), pl)
    ensures forall i :: 0 <= i < |r| - 1 ==> r[i] in order
  {
    var k := Find(order, pl.Id());
    if k == |order| then order + [Item(pl.Id(), pl)]
    else
      var r := order[..k] + order[k + 1..] + [Item(pl.Id(), pl)];
      assert forall i :: 0 <= i < |r| - 1 ==> r[i] == (if i < k then order[i] else order[i + 1]);
      r
  }

  lemma KeysMove(order: seq<Item>, pl: Pipeline, key: Option<string>)
    requires DistinctKeys(order) && (HasKey(order, key) || key == pl.Id())
    ensures HasKey(MoveToEnd(order, pl), key)
  {
    var r := MoveToEnd(order, pl);
    if key == pl.Id() {
      assert r[|r| - 1].key == key;
    } else {
      var j :| 0 <= j < |order| && order[j].key == key;
      var k := Find(order, pl.Id());
      assert r[if j < k then j else j - 1] == order[j];
    }
  }

  ghost predicate HasKey(order: seq<Item>, key: Option<string>) {
    exists j :: 0 <= j < |order| && order[j].key == key
  }

  // `key` comes after position `i`: it will be built before.
  ghost predicate Later(order: seq<Item>, i: int, key: Option<string>) {
    exists j :: 0 <= j < |order| && i < j && order[j].key == key
  }

  // The place where a surviving element was before.
  function Before(order: seq<Item>, pl: Pipeline, i: nat): nat {
    if i < Find(order, pl.Id()) then i else i + 1
  }

  lemma LaterMoves(order: seq<Item>, pl: Pipeline, i: nat, key: Option<string>)
    requires DistinctKeys(order) && i < |MoveToEnd(order, pl)| - 1
    ensures Before(order, pl, i) < |order| && MoveToEnd(order, pl)[i] == order[Before(order, pl, i)]
    ensures Later(order, Before(order, pl, i), key) || key == pl.Id() ==> Later(MoveToEnd(order, pl), i, key)
  {
    var r := MoveToEnd(order, pl);
    var k := Find(order, pl.Id());
    if key == pl.Id() {
      assert r[|r| - 1].key == key;
    } else if j :| 0 <= j < |order| && Before(order, pl, i) < j && order[j].key == key {
      assert r[if j < k then j else j - 1] == order[j];
    }
  }

  // ----------------------------------------------------------------- the planner

  // A needed pipeline is still to be looked at, or comes later.
  ghost predicate OrderInv(m: Manifest, stored: set<string>, check: seq<Option<Pipeline>>, order: seq<Item>) {
    forall i, q :: 0 <= i < |order| && q in Needs(m, stored, order[i].pl) && Unstored(stored, q) ==>
      q in check || Later(order, i, q.value.Id())
  }

  ghost predicate Covered(m: Manifest, stored: set<string>, goals: seq<Option<Pipeline>>,
                          check: seq<Option<Pipeline>>, seen: set<Pipeline>)
  {
    && (forall q :: q in goals ==> q in check || Done(stored, seen, q))
    && (forall p, q :: p in seen && q in Needs(m, stored, p) ==> q in check || Done(stored, seen, q))
  }

  ghost predicate Justified(m: Manifest, stored: set<string>, reach: iset<Option<Pipeline>>,
                            check: seq<Option<Pipeline>>, order: seq<Item>)
  {
    && (forall q :: q in check ==> q in reach)
    && (forall it :: it in order ==>
          && it.key == it.pl.Id() && it.pl in m.pipelines
          && !Contains(stored, it.key) && Some(it.pl) in reach)
  }

  ghost predicate Listed(order: seq<Item>, seen: set<Pipeline>) {
    forall p :: p in seen ==> HasKey(order, p.Id())
  }

  ghost predicate PlanInv(m: Manifest, stored: set<string>, goals: seq<Option<Pipeline>>, reach: iset<Option<Pipeline>>,
                          check: seq<Option<Pipeline>>, order: seq<Item>, seen: set<Pipeline>) {
    && Known(m, check) && DistinctKeys(order) && Listed(order, seen)
    && OrderInv(m, stored, check, order) && Covered(m, stored, goals, check, seen)
    && Justified(m, stored, reach, check, order)
  }

  lemma SkipKeeps(m: Manifest, stored: set<string>, goals: seq<Option<Pipeline>>, reach: iset<Option<Pipeline>>,
                  check: seq<Option<Pipeline>>, order: seq<Item>, seen: set<Pipeline>, p: Pipeline)
    requires PlanInv(m, stored, goals, reach, check + [Some(p)], order, seen) && Contains(stored, p.Id())
    ensures PlanInv(m, stored, goals, reach, check, order, seen)
  {
    assert forall q :: q in check ==> q in check + [Some(p)];
  }

  lemma ExpandKeepsOrder(m: Manifest, stored: set<string>, check: seq<Option<Pipeline>>, order: seq<Item>, p: Pipeline)
    requires DistinctKeys(order) && OrderInv(m, stored, check + [Some(p)], order)
    ensures OrderInv(m, stored, check + Needs(m, stored, p), MoveToEnd(order, p))
  {
    var r := MoveToEnd(order, p);
    forall i, q | 0 <= i < |r| && q in Needs(m, stored, r[i].pl) && Unstored(stored, q)
      ensures q in check + Needs(m, stored, p) || Later(r, i, q.value.Id())
    {
      if i < |r| - 1 {
        LaterMoves(order, p, i, q.value.Id());
        assert q in check + [Some(p)] || Later(order, Before(order, p, i), q.value.Id());
      }
    }
  }

  // Replacing the last item by others keeps every other item.
  lemma StillIn(check: seq<Option<Pipeline>>, p: Option<Pipeline>, more: seq<Option<Pipeline>>, q: Option<Pipeline>)
    requires q in check + [p]
    ensures q == p || q in check + more
  {
  }

  // An item that was covered still is when `p` is taken off and its needs are added.
  lemma StillCovered(m: Manifest, stored: set<string>, check: seq<Option<Pipeline>>, seen: set<Pipeline>, p: Pipeline,
                     q: Option<Pipeline>)
    requires q in check + [Some(p)] || Done(stored, seen, q)
    ensures q in check + Needs(m, stored, p) || Done(stored, seen + {p}, q)
  {
    if q in check + [Some(p)] {
      StillIn(check, Some(p), Needs(m, stored, p), q);
    }
  }

  lemma ExpandKeepsCovered(m: Manifest, stored: set<string>, goals: seq<Option<Pipeline>>,
                           check: seq<Option<Pipeline>>, seen: set<Pipeline>, p: Pipeline)
    requires Covered(m, stored, goals, check + [Some(p)], seen)
    ensures Covered(m, stored, goals, check + Needs(m, stored, p), seen + {p})
  {
    var more := Needs(m, stored, p);
    forall q | q in goals ensures q in check + more || Done(stored, seen + {p}, q) {
      StillCovered(m, stored, check, seen, p, q);
    }
    forall r, q | r in seen + {p} && q in Needs(m, stored, r) ensures q in check + more || Done(stored, seen + {p}, q) {
      if r in seen {
        StillCovered(m, stored, check, seen, p, q);
      }
    }
  }

  lemma ExpandKeepsJustified(m: Manifest, stored: set<string>, reach: iset<Option<Pipeline>>,
                             check: seq<Option<Pipeline>>, order: seq<Item>, p: Pipeline)
    requires DistinctKeys(order) && Justified(m, stored, reach, check + [Some(p)], order)
    requires ClosedUnderNeeds(m, stored, reach)
    requires p in m.pipelines && !Contains(stored, p.Id())
    ensures Justified(m, stored, reach, check + Needs(m, stored, p), MoveToEnd(order, p))
  {
    assert Some(p) in check + [Some(p)];
    forall q | q in check + Needs(m, stored, p) ensures q in reach {
      if q in check {
        assert q in check + [Some(p)];
      }
    }
    var r := MoveToEnd(order, p);
    forall it | it in r ensures it in order || it == Item(p.Id(), p) {
      var i :| 0 <= i < |r| && r[i] == it;
    }
  }

  lemma ExpandKeepsKnown(m: Manifest, stored: set<string>, check: seq<Option<Pipeline>>, p: Pipeline)
    requires Known(m, check + [Some(p)])
    ensures Known(m, check) && Known(m, check + Needs(m, stored, p)) && p in m.pipelines
  {
    assert Some(p) in check + [Some(p)];
    forall q | Some(q) in check ensures q in m.pipelines {
      assert Some(q) in check + [Some(p)];
    }
    NeedsKnown(m, stored, p);
  }

  lemma ExpandKeeps(m: Manifest, stored: set<string>, goals: seq<Option<Pipeline>>, reach: iset<Option<Pipeline>>,
                    check: seq<Option<Pipeline>>, order: seq<Item>, seen: set<Pipeline>, p: Pipeline)
    requires PlanInv(m, stored, goals, reach, check + [Some(p)], order, seen) && !Contains(stored, p.Id())
    requires ClosedUnderNeeds(m, stored, reach)
    ensures PlanInv(m, stored, goals, reach, check + Needs(m, stored, p), MoveToEnd(order, p), seen + {p})
  {
    ExpandKeepsKnown(m, stored, check, p);
    ExpandKeepsOrder(m, stored, check, order, p);
    ExpandKeepsCovered(m, stored, goals, check, seen, p);
    ExpandKeepsJustified(m, stored, reach, check, order, p);
    forall q | q in seen + {p} ensures HasKey(MoveToEnd(order, p), q.Id()) {
      KeysMove(order, p, q.Id());
    }
  }

  // ---- what the plan is for

  function PlanIds(m: Manifest, names: seq<string>): (ids: seq<Option<string>>)
    ensures |ids| == |names|
  {
    seq(|names|, i requires 0 <= i < |names| => if m.Get(names[i]).Some? then m.Get(names[i]).value.Id() else None)
  }

  ghost predicate MissingReachable(m: Manifest, stored: set<string>, targets: seq<string>) {
    Reachable(m, stored, targets, None)
  }

  // Every entry is an unstored pipeline some target leads to, no id occurs twice,
  // and every such pipeline's id occurs.
  ghost predicate Exact(m: Manifest, stored: set<string>, targets: seq<string>, names: seq<string>) {
    && (forall i :: 0 <= i < |names| ==>
          Unstored(stored, m.Get(names[i])) && Reachable(m, stored, targets, m.Get(names[i])))
    && (forall i, j :: 0 <= i < j < |names| ==> PlanIds(m, names)[i] != PlanIds(m, names)[j])
    && (forall q :: Reachable(m, stored, targets, q) && Unstored(stored, q) ==> q.value.Id() in PlanIds(m, names))
  }

  // Whatever an entry needs is stored or comes earlier.
  ghost predicate Ordered(m: Manifest, stored: set<string>, names: seq<string>) {
    forall i, q :: 0 <= i < |names| && m.Get(names[i]).Some? ==>
      q in Needs(m, stored, m.Get(names[i]).value) && Unstored(stored, q) ==> q.value.Id() in PlanIds(m, names)[..i]
  }

  // The names, last entry first.
  function BuildOrder(order: seq<Item>): (names: seq<string>)
    ensures |names| == |order| && forall i :: 0 <= i < |names| ==> names[i] == order[|order| - 1 - i].pl.name
  {
    seq(|order|, i requires 0 <= i < |order| => order[|order| - 1 - i].pl.name)
  }

  lemma Finished(m: Manifest, stored: set<string>, targets: seq<string>, order: seq<Item>, seen: set<Pipeline>,
                 names: seq<string>)
    requires m.Valid() && PlanInv(m, stored, m.Lookup(targets), ReachableSet(m, stored, targets), [], order, seen)
    requires names == BuildOrder(order)
    ensures Exact(m, stored, targets, names) && Ordered(m, stored, names) && !MissingReachable(m, stored, targets)
  {
    var reach := ReachableSet(m, stored, targets);
    ReachableInClosed(m, stored, targets, seen);
    FinishedNames(m, stored, reach, order, names);
    FinishedSound(m, stored, reach, order, names);
    FinishedComplete(m, stored, reach, order, seen, PlanIds(m, names));
    FinishedOrdered(m, stored, order, names);
    FinishedOnce(order, PlanIds(m, names));
  }

  lemma FinishedOnce(order: seq<Item>, ids: seq<Option<string>>)
    requires DistinctKeys(order) && Reversed(ids, order)
    ensures forall i, j :: 0 <= i < j < |ids| ==> ids[i] != ids[j]
  {
  }

  lemma FinishedNames(m: Manifest, stored: set<string>, reach: iset<Option<Pipeline>>, order: seq<Item>,
                      names: seq<string>)
    requires m.Valid() && Justified(m, stored, reach, [], order) && names == BuildOrder(order)
    ensures forall i :: 0 <= i < |names| ==> m.Get(names[i]) == Some(order[|names| - 1 - i].pl)
    ensures Reversed(PlanIds(m, names), order)
  {
    forall i | 0 <= i < |names|
      ensures m.Get(names[i]) == Some(order[|names| - 1 - i].pl) && PlanIds(m, names)[i] == order[|names| - 1 - i].key
    {
      assert order[|names| - 1 - i] in order;
      GetByName(m, order[|names| - 1 - i].pl);
    }
  }

  lemma FinishedSound(m: Manifest, stored: set<string>, reach: iset<Option<Pipeline>>, order: seq<Item>,
                      names: seq<string>)
    requires Justified(m, stored, reach, [], order) && |names| == |order|
    requires forall i :: 0 <= i < |names| ==> m.Get(names[i]) == Some(order[|names| - 1 - i].pl)
    ensures forall i :: 0 <= i < |names| ==> Unstored(stored, m.Get(names[i])) && m.Get(names[i]) in reach
  {
    forall i | 0 <= i < |names| ensures Unstored(stored, m.Get(names[i])) && m.Get(names[i]) in reach {
      assert order[|names| - 1 - i] in order;
    }
  }

  ghost predicate Reversed(ids: seq<Option<string>>, order: seq<Item>) {
    |ids| == |order| && forall i :: 0 <= i < |ids| ==> ids[i] == order[|ids| - 1 - i].key
  }

  lemma FinishedComplete(m: Manifest, stored: set<string>, reach: iset<Option<Pipeline>>, order: seq<Item>,
                         seen: set<Pipeline>, ids: seq<Option<string>>)
    requires Reversed(ids, order) && Listed(order, seen) && forall q :: q in reach ==> Done(stored, seen, q)
    ensures forall q :: q in reach && Unstored(stored, q) ==> q.value.Id() in ids
  {
    forall q | q in reach && Unstored(stored, q) ensures q.value.Id() in ids {
      assert HasKey(order, q.value.Id());
      var j :| 0 <= j < |order| && order[j].key == q.value.Id();
      assert ids[|ids| - 1 - j] == q.value.Id();
    }
  }

  // What comes later in the result comes earlier in the plan.
  lemma LaterIsBefore(order: seq<Item>, ids: seq<Option<string>>, i: nat, key: Option<string>)
    requires Reversed(ids, order) && i < |ids| && Later(order, |ids| - 1 - i, key)
    ensures key in ids[..i]
  {
    var j :| 0 <= j < |order| && |ids| - 1 - i < j && order[j].key == key;
    assert ids[..i][|ids| - 1 - j] == key;
  }

  lemma FinishedOrdered(m: Manifest, stored: set<string>, order: seq<Item>, names: seq<string>)
    requires OrderInv(m, stored, [], order) && Reversed(PlanIds(m, names), order)
    requires forall i :: 0 <= i < |names| ==> m.Get(names[i]) == Some(order[|names| - 1 - i].pl)
    ensures Ordered(m, stored, names)
  {
    var ids, n := PlanIds(m, names), |names|;
    forall i, q | 0 <= i < n && q in Needs(m, stored, m.Get(names[i]).value) && Unstored(stored, q)
      ensures q.value.Id() in ids[..i]
    {
      var at := n - 1 - i;
      assert q in Needs(m, stored, order[at].pl);
      LaterIsBefore(order, ids, i, q.value.Id());
    }
  }

  // The items of `p` weigh less than `p`.
  lemma ExpandLighter(m: Manifest, stored: set<string>, reach: iset<Option<Pipeline>>, rank: Pipeline -> nat,
                      check: seq<Option<Pipeline>>, p: Pipeline)
    requires Acyclic(m, stored, reach, rank) && Within(check + [Some(p)], reach)
    ensures Within(check, reach)
    ensures Total(m, stored, reach, rank, check) < Total(m, stored, reach, rank, check + [Some(p)])
    ensures !Contains(stored, p.Id()) ==>
      && Within(check + Needs(m, stored, p), reach)
      && Total(m, stored, reach, rank, check + Needs(m, stored, p)) < Total(m, stored, reach, rank, check + [Some(p)])
  {
    assert forall q :: q in check ==> q in check + [Some(p)];
    assert Some(p) in check + [Some(p)];
    assert (check + [Some(p)])[..|check|] == check;
    if !Contains(stored, p.Id()) {
      SumIsTotal(m, stored, reach, rank, Needs(m, stored, p), rank(p));
      TotalConcat(m, stored, reach, rank, check, Needs(m, stored, p));
    }
  }

  lemma StageNeedsStep(m: Manifest, stored: set<string>, stages: seq<Stage>, i: nat)
    requires 0 < i <= |stages| && !Contains(stored, Some(stages[i - 1].id))
    ensures StageNeeds(m, stored, stages[..i]) == m.Lookup(stages[i - 1].deps) + StageNeeds(m, stored, stages[..i - 1])
  {
    assert stages[..i][..i - 1] == stages[..i - 1];
  }

  lemma Regroup(a: seq<Option<Pipeline>>, b: seq<Option<Pipeline>>, c: seq<Option<Pipeline>>)
    ensures a + (b + c) == (a + b) + c
  {
  }

  // Push what `pl` needs.
  method Push(m: Manifest, stored: set<string>, pl: Pipeline, check: seq<Option<Pipeline>>)
    returns (r: seq<Option<Pipeline>>)
    ensures r == check + Needs(m, stored, pl)
  {
    r := check;
    if pl.HasBuild() {
      r := r + [m.Get(pl.build.value)];
    }
    var i := |pl.stages|;
    ghost var build := if pl.HasBuild() then [m.Get(pl.build.value)] else [];
    assert pl.stages[..i] == pl.stages && r == check + build;
    Regroup(check, build, StageNeeds(m, stored, pl.stages));
    while i > 0 && !Contains(stored, Some(pl.stages[i - 1].id))
      invariant 0 <= i <= |pl.stages|
      invariant r + StageNeeds(m, stored, pl.stages[..i]) == check + Needs(m, stored, pl)
    {
      var more := m.Lookup(pl.stages[i - 1].deps);
      StageNeedsStep(m, stored, pl.stages, i);
      Regroup(r, more, StageNeeds(m, stored, pl.stages[..i - 1]));
      r := r + more;
      i := i - 1;
    }
  }

  // What the loop works on: the stack and the ordered result.
  datatype State = State(check: seq<Option<Pipeline>>, order: seq<Item>)

  function Begin(m: Manifest, targets: seq<string>): State { State(m.Lookup(targets), []) }

  // One round of the loop; none if it raises an error.
  function Round(m: Manifest, stored: set<string>, s: State): (r: Option<State>)
    requires s.check != [] && DistinctKeys(s.order)
    ensures r.Some? ==> DistinctKeys(r.value.order)
  {
    var item, rest := s.check[|s.check| - 1], s.check[..|s.check| - 1];
    if item.None? then None
    else if Contains(stored, item.value.Id()) then Some(State(rest, s.order))
    else Some(State(rest + Needs(m, stored, item.value), MoveToEnd(s.order, item.value)))
  }

  // At most `n` rounds; none once an error was raised.
  ghost function Rounds(m: Manifest, stored: set<string>, s: State, n: nat): (r: Option<State>)
    requires DistinctKeys(s.order)
    ensures r.Some? ==> DistinctKeys(r.value.order)
    decreases n
  {
    if n == 0 || s.check == [] then Some(s)
    else
      match Round(m, stored, s)
      case None => None
      case Some(next) => Rounds(m, stored, next, n - 1)
  }

  // The loop has ended properly after `n` rounds.
  ghost predicate EndsWithin(m: Manifest, stored: set<string>, s: State, n: nat)
    requires DistinctKeys(s.order)
  {
    var r := Rounds(m, stored, s, n);
    r.Some? && r.value.check == []
  }

  lemma {:induction false} OneMore(m: Manifest, stored: set<string>, s: State, n: nat)
    requires DistinctKeys(s.order) && Rounds(m, stored, s, n).Some? && Rounds(m, stored, s, n).value.check != []
    ensures Rounds(m, stored, s, n + 1) == Round(m, stored, Rounds(m, stored, s, n).value)
    decreases n
  {
    if n > 0 {
      OneMore(m, stored, Round(m, stored, s).value, n - 1);
    }
  }

  // What the loop makes of the targets: `r` after `n` rounds.
  ghost predicate Answers(m: Manifest, stored: set<string>, targets: seq<string>, n: nat, r: Option<seq<string>>) {
    var s := Rounds(m, stored, Begin(m, targets), n);
    if r.None? then s.None? else s.Some? && s.value.check == [] && r.value == BuildOrder(s.value.order)
  }

  // Where the loop stands after `n` rounds.
  ghost predicate LoopInv(m: Manifest, stored: set<string>, goals: seq<Option<Pipeline>>, rank: Pipeline -> nat,
                          reach: iset<Option<Pipeline>>, s: State, seen: set<Pipeline>, n: nat)
  {
    && Acyclic(m, stored, reach, rank) && Within(s.check, reach)
    && PlanInv(m, stored, goals, reach, s.check, s.order, seen)
    && Rounds(m, stored, State(goals, []), n) == Some(s)
  }

  lemma RoundKeeps(m: Manifest, stored: set<string>, goals: seq<Option<Pipeline>>, rank: Pipeline -> nat,
                   reach: iset<Option<Pipeline>>, check: seq<Option<Pipeline>>, p: Pipeline, order: seq<Item>,
                   seen: set<Pipeline>, n: nat)
    requires LoopInv(m, stored, goals, rank, reach, State(check + [Some(p)], order), seen, n)
    ensures var next := Round(m, stored, State(check + [Some(p)], order)).value;
      && next == (if Contains(stored, p.Id()) then State(check, order)
                  else State(check + Needs(m, stored, p), MoveToEnd(order, p)))
      && LoopInv(m, stored, goals, rank, reach, next, if Contains(stored, p.Id()) then seen else seen + {p}, n + 1)
      && Total(m, stored, reach, rank, next.check) < Total(m, stored, reach, rank, check + [Some(p)])
  {
    assert (check + [Some(p)])[..|check|] == check;
    OneMore(m, stored, State(goals, []), n);
    ExpandLighter(m, stored, reach, rank, check, p);
    if Contains(stored, p.Id()) {
      SkipKeeps(m, stored, goals, reach, check, order, seen, p);
    } else {
      ExpandKeeps(m, stored, goals, reach, check, order, seen, p);
    }
  }

  // One turn of the loop, for a reference that leads somewhere.
  method Look(m: Manifest, stored: set<string>, ghost goals: seq<Option<Pipeline>>, ghost rank: Pipeline -> nat,
              ghost reach: iset<Option<Pipeline>>, check: seq<Option<Pipeline>>, order: seq<Item>,
              ghost seen: set<Pipeline>, ghost n: nat)
    returns (check': seq<Option<Pipeline>>, order': seq<Item>, ghost seen': set<Pipeline>)
    requires check != [] && check[|check| - 1].Some?
    requires LoopInv(m, stored, goals, rank, reach, State(check, order), seen, n)
    ensures LoopInv(m, stored, goals, rank, reach, State(check', order'), seen', n + 1)
    ensures Total(m, stored, reach, rank, check') < Total(m, stored, reach, rank, check)
  {
    var pl := check[|check| - 1].value;
    check', order', seen' := check[..|check| - 1], order, seen;
    assert check == check' + [Some(pl)];
    RoundKeeps(m, stored, goals, rank, reach, check', pl, order, seen, n);
    if !Contains(stored, pl.Id()) {
      order', seen' := MoveToEnd(order, pl), seen + {pl};
      check' := Push(m, stored, pl, check');
    }
  }

  // The loop of the planner, for any set of items that needs cannot leave.
  method Collect(m: Manifest, stored: set<string>, goals: seq<Option<Pipeline>>, ghost rank: Pipeline -> nat,
                 ghost reach: iset<Option<Pipeline>>)
    returns (missing: bool, order: seq<Item>, ghost seen: set<Pipeline>, ghost n: nat)
    requires Acyclic(m, stored, reach, rank) && Known(m, goals)
    requires forall q :: q in goals ==> q in reach
    ensures missing ==> None in reach
    ensures !missing ==> PlanInv(m, stored, goals, reach, [], order, seen)
    ensures Rounds(m, stored, State(goals, []), n) == if missing then None else Some(State([], order))
  {
    var check := goals;
    order, seen, missing, n := [], {}, false, 0;
    while check != []
      invariant LoopInv(m, stored, goals, rank, reach, State(check, order), seen, n)
      decreases Total(m, stored, reach, rank, check)
    {
      var item := check[|check| - 1];
      if item.None? {
        assert None in check;
        OneMore(m, stored, State(goals, []), n);
        return true, order, seen, n + 1;
      }
      check, order, seen := Look(m, stored, goals, rank, reach, check, order, seen, n);
      n := n + 1;
    }
  }

  lemma GoalsKnown(m: Manifest, targets: seq<string>)
    ensures Known(m, m.Lookup(targets))
  {
  }

  /** `depsolve` ends whenever what the targets lead to is acyclic.  It fails exactly when some
      reference it has to follow leads nowhere; otherwise it returns exactly the
      unstored pipelines the targets lead to, each once, dependencies first. */
  method Depsolve(m: Manifest, stored: set<string>, targets: seq<string>, ghost rank: Pipeline -> nat)
    returns (r: Option<seq<string>>)
    requires m.Valid() && Acyclic(m, stored, ReachableSet(m, stored, targets), rank)
    ensures r.None? <==> MissingReachable(m, stored, targets)
    ensures r.Some? ==> Exact(m, stored, targets, r.value) && Ordered(m, stored, r.value)
    ensures exists n :: Answers(m, stored, targets, n, r)
  {
    ghost var reach := ReachableSet(m, stored, targets);
    GoalsKnown(m, targets);
    var missing, order, seen, n := Collect(m, stored, m.Lookup(targets), rank, reach);
    if missing {
      assert Answers(m, stored, targets, n, None);
      return None;
    }
    var names := BuildOrder(order);
    assert Answers(m, stored, targets, n, Some(names));
    Finished(m, stored, targets, order, seen, names);
    r := Some(names);
  }

  // ------------------------------------------------------------- when it ends

  // `q` starts a chain of `k` needs through unstored pipelines.
  ghost predicate Chain(m: Manifest, stored: set<string>, q: Option<Pipeline>, k: nat)
    decreases k, 1
  {
    q.Some? && (k > 0 ==> !Contains(stored, q.value.Id()) && exists r :: ChainOn(m, stored, q.value, r, k))
  }

  ghost predicate ChainOn(m: Manifest, stored: set<string>, p: Pipeline, r: Option<Pipeline>, k: nat)
    requires k > 0
    decreases k, 0
  {
    r in Needs(m, stored, p) && Chain(m, stored, r, k - 1)
  }

  ghost predicate Endless(m: Manifest, stored: set<string>, q: Option<Pipeline>) {
    forall k: nat :: Chain(m, stored, q, k)
  }

  lemma {:induction false} ShorterChain(m: Manifest, stored: set<string>, q: Option<Pipeline>, k: nat, n: nat)
    requires n <= k && Chain(m, stored, q, k)
    ensures Chain(m, stored, q, n)
    decreases n
  {
    if n > 0 {
      var r :| ChainOn(m, stored, q.value, r, k);
      ShorterChain(m, stored, r, k - 1, n - 1);
      assert ChainOn(m, stored, q.value, r, n);
    }
  }

  // As long as a chain of needs is, so many rounds at least the loop takes.
  lemma {:induction false} ChainTakesRounds(m: Manifest, stored: set<string>, s: State, q: Option<Pipeline>, n: nat)
    requires q in s.check && Chain(m, stored, q, n) && DistinctKeys(s.order)
    ensures !EndsWithin(m, stored, s, n)
    decreases n
  {
    if n > 0 && s.check[|s.check| - 1].Some? {
      var p, rest := s.check[|s.check| - 1].value, s.check[..|s.check| - 1];
      var next := Round(m, stored, s).value;
      if q in rest {
        ShorterChain(m, stored, q, n, n - 1);
        ChainTakesRounds(m, stored, next, q, n - 1);
      } else {
        assert q == Some(p);
        var r :| ChainOn(m, stored, p, r, n);
        ChainTakesRounds(m, stored, next, r, n - 1);
      }
    }
  }

  // Whatever leads to an endless chain starts one.
  lemma {:induction false} EndlessFromStart(m: Manifest, stored: set<string>, targets: seq<string>,
                                            path: seq<Option<Pipeline>>, i: nat)
    requires IsPath(m, stored, targets, path) && i < |path| && Endless(m, stored, path[i])
    ensures Endless(m, stored, path[0])
  {
    if i > 0 {
      var p, q := path[i - 1], path[i];
      assert Unstored(stored, path[i - 1]) && path[i - 1 + 1] in Needs(m, stored, path[i - 1].value);
      forall k: nat ensures Chain(m, stored, p, k) {
        assert Chain(m, stored, q, k) && ChainOn(m, stored, p.value, q, k + 1);
        ShorterChain(m, stored, p, k + 1, k);
      }
      EndlessFromStart(m, stored, targets, path, i - 1);
    }
  }

  /** When the targets lead to a chain of needs that never ends, neither does the loop,
      unless it raises an error. */
  lemma NeverEnds(m: Manifest, stored: set<string>, targets: seq<string>, q: Option<Pipeline>, n: nat)
    requires Reachable(m, stored, targets, q) && Endless(m, stored, q)
    ensures !EndsWithin(m, stored, Begin(m, targets), n)
  {
    var path :| IsPath(m, stored, targets, path) && path[|path| - 1] == q;
    EndlessFromStart(m, stored, targets, path, |path| - 1);
    ChainTakesRounds(m, stored, Begin(m, targets), path[0], n);
  }

  ghost function Height(m: Manifest, stored: set<string>, p: Pipeline): nat {
    if k: nat :| !Chain(m, stored, Some(p), k) then Least(m, stored, p, k) else 0
  }

  ghost function Least(m: Manifest, stored: set<string>, p: Pipeline, k: nat): (n: nat)
    requires !Chain(m, stored, Some(p), k)
    ensures !Chain(m, stored, Some(p), n) && n > 0 && Chain(m, stored, Some(p), n - 1)
  {
    if Chain(m, stored, Some(p), k - 1) then k else Least(m, stored, p, k - 1)
  }

  /** Otherwise there is nothing circular in what the targets lead to, and it ends. */
  lemma EndsOtherwise(m: Manifest, stored: set<string>, targets: seq<string>) returns (rank: Pipeline -> nat)
    requires forall q :: Reachable(m, stored, targets, q) ==> !Endless(m, stored, q)
    ensures Acyclic(m, stored, ReachableSet(m, stored, targets), rank)
  {
    rank := (p: Pipeline) => Height(m, stored, p);
    var reach := ReachableSet(m, stored, targets);
    forall p: Pipeline, q: Pipeline | Some(p) in reach && !Contains(stored, p.Id()) && Some(q) in Needs(m, stored, p)
      ensures rank(q) < rank(p)
    {
      assert Reachable(m, stored, targets, Some(p));
      HeightDrops(m, stored, p, q);
    }
  }

  lemma HeightDrops(m: Manifest, stored: set<string>, p: Pipeline, q: Pipeline)
    requires !Endless(m, stored, Some(p)) && !Contains(stored, p.Id()) && Some(q) in Needs(m, stored, p)
    ensures Height(m, stored, q) < Height(m, stored, p)
  {
    var k: nat :| !Chain(m, stored, Some(p), k);
    var h := Height(m, stored, p);
    assert !Chain(m, stored, Some(p), h) && h > 0;
    if Chain(m, stored, Some(q), h - 1) {
      assert ChainOn(m, stored, p, Some(q), h);
    }
    var j := Height(m, stored, q);
    assert Chain(m, stored, Some(q), j - 1);
    if h <= j {
      ShorterChain(m, stored, Some(q), j - 1, h - 1);
    }
  }
}
