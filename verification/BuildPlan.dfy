/**
  Building what the planner returned (osbuild/pipeline.py:610-693) on a cache that
  other processes share: what must stay in it so that no pipeline lacks its build tree
  or an input, and what goes wrong when any less stays.
 */
module BuildPlan {
  import opened Wrappers
  import opened Manifests
  import opened Trees
  import opened Builder
  import Depsolve

  ghost predicate Resolves(m: Manifest, ref: string) {
    m.Get(ref).Some? ==> m.Get(ref).value.Id() == Some(ref)
  }

  // References are ids, and no pipeline is named like the id of another.
  ghost predicate RefsAreIds(m: Manifest) {
    forall p :: p in m.pipelines ==>
      && (p.HasBuild() ==> Resolves(m, p.build.value))
      && forall k, d :: 0 <= k < |p.stages| && d in p.stages[k].deps ==> Resolves(m, d)
  }

  // What `depsolve` returned when the ids in `stored` were visible.
  ghost predicate IsPlan(m: Manifest, stored: set<string>, targets: seq<string>, names: seq<string>) {
    && Depsolve.Exact(m, stored, targets, names) && Depsolve.Ordered(m, stored, names)
    && !Depsolve.MissingReachable(m, stored, targets)
  }

  // `p` needs the tree `id`: as its build tree, or as an input of a stage no stored
  // tree lets it skip.
  ghost predicate Wants(p: Pipeline, stored: set<string>, id: string) {
    || (p.stages != [] && p.HasBuild() && p.build.value == id)
    || exists k :: TakesAt(p, stored, id, k)
  }

  ghost predicate TakesAt(p: Pipeline, stored: set<string>, id: string, k: int) {
    Depsolve.MustRun(stored, p.stages, k) && id in p.stages[k].deps
  }

  // Some pipeline of the plan needs the tree `id`.
  ghost predicate Wanted(ps: seq<Pipeline>, stored: set<string>, id: string) {
    exists i :: 0 <= i < |ps| && Wants(ps[i], stored, id)
  }

  // What `p` needs is stored, or among `before`.
  ghost predicate Covered(p: Pipeline, stored: set<string>, before: seq<Option<string>>) {
    forall id :: Wants(p, stored, id) ==> id in stored || Some(id) in before
  }

  lemma NeedCovered(m: Manifest, stored: set<string>, targets: seq<string>, names: seq<string>, i: nat, ref: string)
    requires IsPlan(m, stored, targets, names) && i < |names|
    requires m.Get(names[i]).Some? && m.Get(ref) in Depsolve.Needs(m, stored, m.Get(names[i]).value) && Resolves(m, ref)
    ensures ref in stored || Some(ref) in Depsolve.PlanIds(m, names)[..i]
  {
    var p := m.Get(names[i]).value;
    assert Depsolve.Unstored(stored, Some(p)) && Depsolve.Reachable(m, stored, targets, Some(p));
    Depsolve.ReachNeed(m, stored, targets, p, m.Get(ref));
  }

  // A plan covers its entries one after the other.
  lemma EntryCovered(m: Manifest, stored: set<string>, targets: seq<string>, names: seq<string>, i: nat)
    requires IsPlan(m, stored, targets, names) && i < |names| && RefsAreIds(m)
    ensures m.Get(names[i]).Some? && m.Get(names[i]).value in m.pipelines
    ensures Depsolve.PlanIds(m, names)[i] == m.Get(names[i]).value.Id()
    ensures Covered(m.Get(names[i]).value, stored, Depsolve.PlanIds(m, names)[..i])
  {
    assert Depsolve.Unstored(stored, m.Get(names[i]));
    var p := m.Get(names[i]).value;
    forall id | Wants(p, stored, id) ensures id in stored || Some(id) in Depsolve.PlanIds(m, names)[..i] {
      if k :| TakesAt(p, stored, id, k) {
        assert Depsolve.TakenBy(m, stored, p.stages, m.Get(id), k);
        Depsolve.StageNeedsMeaning(m, stored, p.stages, m.Get(id));
      }
      NeedCovered(m, stored, targets, names, i, id);
    }
  }

  predicate Lacking(r: Outcome) { r.NoBuildTree? || r.NoInput? }

  // The id of the tree that is lacking.
  ghost function Missing(p: Pipeline, r: Outcome): string
    requires Lacking(r) && (r.NoBuildTree? ==> p.HasBuild())
  {
    if r.NoInput? then r.id else p.build.value
  }

  // The room the checkpoints of the pipelines from `i` on take.
  ghost function Total(weigh: Tree -> nat, D: Denotation, ps: seq<Pipeline>, i: nat): nat
    requires i <= |ps|
    decreases |ps| - i
  {
    if i == |ps| then 0 else Need(weigh, D, ps[i], 0) + Total(weigh, D, ps, i + 1)
  }

  // What may be evicted: by others, and by commits unless there is room for them all.
  ghost function AtRisk(cache: Cache, limit: int, room: nat): set<string> {
    Evictions(cache.script) + if cache.RoomFor(limit, room) then {} else Union(cache.purges)
  }

  // Each id is safe, or among those that may be evicted.
  ghost predicate Provided(safe: set<string>, evicted: set<string>, ids: seq<Option<string>>) {
    forall id :: Some(id) in ids ==> id in safe || id in evicted
  }

  /** A pipeline whose needs are covered lacks a tree only if that very tree, or a stored
      tree of one of its own stages, is evicted -- by another process, or by a commit
      that has to make room. */
  lemma LackHasCause(p: Pipeline, stored: set<string>, before: seq<Option<string>>, r: Outcome, safe: set<string>,
                     evicted: set<string>)
    returns (id: string)
    requires Covered(p, stored, before) && Provided(safe, evicted, before) && stored <= safe + evicted && Lacking(r)
    requires r.NoBuildTree? ==> p.stages != [] && p.HasBuild() && p.build.value !in safe
    requires r.NoInput? ==> Starved(p, r.id, safe)
    ensures id in evicted
    ensures
      || (id == Missing(p, r) && Wants(p, stored, id))
      || (id in stored && exists j :: 0 <= j < |p.stages| && p.stages[j].id == id)
  {
    if r.NoInput? {
      var k :| 0 <= k < |p.stages| && StarvedAt(p, k, r.id, safe);
      if Depsolve.MustRun(stored, p.stages, k) {
        assert TakesAt(p, stored, r.id, k);
        id := r.id;
      } else {
        var j :| k <= j < |p.stages| && Contains(stored, Some(p.stages[j].id));
        id := p.stages[j].id;
      }
    } else {
      id := p.build.value;
    }
  }

  // `p` cannot be built once the trees in `gone` are.
  ghost predicate Hopeless(p: Pipeline, gone: set<string>) {
    && p.stages != [] && p.Id().value != "" && p.Id().value in gone
    && ((p.HasBuild() && p.build.value in gone) || Deprived(p, gone))
  }

  // A pipeline and what is gone at its turn.
  datatype Doom = Doom(p: Pipeline, gone: set<string>)

  // The pipeline a script makes hopeless, if it adds the trees of those before, one at
  // each turn.
  ghost function Doomed(script: seq<Change>, ps: seq<Pipeline>): Option<Doom> {
    if script == [] || ps == [] then None
    else if |script| == 1 && Hopeless(ps[0], script[0].evicted - script[0].added.Keys) then
      Some(Doom(ps[0], script[0].evicted - script[0].added.Keys))
    else if ps[0].stages == [] then Doomed(script, ps[1..])
    else if |script| > 1 && ps[0].Id().value != "" && ps[0].Id().value in script[0].added then
      Doomed(script[1..], ps[1..])
    else None
  }

  // A doomed plan fails for want of the build tree, or of an input unless a stage
  // fails before it is asked for.
  ghost predicate Fails(r: Outcome, d: Doom) {
    if d.p.HasBuild() && d.p.build.value in d.gone then r.NoBuildTree? else Lacking(r) || r.StageFailed?
  }

  // What a turn does when no tree of this run can be used.
  ghost predicate Turned(was: Cache, now: Cache, p: Pipeline, r: Outcome) {
    && (r.Nothing? <==> p.stages == [])
    && (r.Skipped? <==> p.stages != [] && p.Id().value != "" && p.Id().value in was.Next().entries)
    && (r.Nothing? ==> now == was) && (r.Skipped? ==> now == was.Next())
    && (p.stages != [] && !r.Skipped? && p.HasBuild() && p.build.value in was.Gone() ==> r.NoBuildTree?)
    && (Deprived(p, was.Gone()) ==> !r.Built?)
  }

  // A pipeline at its turn leads to the doom of its script, or no nearer to it.
  lemma DoomTurn(was: Cache, now: Cache, p: Pipeline, rest: seq<Pipeline>, r: Outcome)
    requires Doomed(was.script, [p] + rest).Some? && Turned(was, now, p, r)
    ensures if r.Nothing? || r.Skipped? then Doomed(now.script, rest) == Doomed(was.script, [p] + rest)
            else Fails(r, Doomed(was.script, [p] + rest).value)
  {
    assert ([p] + rest)[1..] == rest;
  }

  // Nobody else is at work, and neither the tree of `p` nor its build tree is there.
  ghost predicate Stranded(floating: set<string>, cache: Cache, p: Pipeline) {
    && cache.script == [] && p.stages != [] && p.HasBuild()
    && p.Id().value !in floating + cache.entries.Keys && p.build.value !in floating + cache.entries.Keys
  }

  // `p` needs nothing but the host, and its checkpoint makes the cache too full.
  ghost predicate Greedy(store: ObjectStore, D: Denotation, p: Pipeline, floating: set<string>, cache: Cache) {
    && Overflows(store, D, p, cache) && EndsMarked(p) && !p.HasBuild()
    && p.Id().value !in floating + cache.entries.Keys
    && forall k :: 0 <= k < |p.stages| ==> p.stages[k].deps == []
  }

  // The commit of `p` evicts the build tree of `q`, whose own tree is not there.
  ghost predicate Cornered(store: ObjectStore, D: Denotation, p: Pipeline, q: Pipeline, floating: set<string>,
                           cache: Cache)
  {
    && Greedy(store, D, p, floating, cache) && q.stages != [] && q.HasBuild()
    && q.build.value in cache.purges[0] - Builder.Ids(p, |p.stages|) - floating
    && q.Id().value !in floating + cache.entries.Keys + Builder.Ids(p, |p.stages|)
  }

  lemma CorneredIsStranded(store: ObjectStore, D: Denotation, p: Pipeline, q: Pipeline, floating: set<string>,
                           was: Cache, now: Cache)
    requires Cornered(store, D, p, q, floating, was) && Swept(store, D, p, was, now)
    ensures Stranded(floating + {p.Id().value}, now, q)
  {
    Builder.IdsAt(p, |p.stages|, p.Id().value);
    assert p.stages[|p.stages| - 1].id == p.Id().value;
  }

  // What was stored, and the trees of `before`, are safe unless they are evicted.
  ghost predicate Kept(floating: set<string>, cache: Cache, risk: set<string>,
                       stored: set<string>, before: seq<Option<string>>, evicted: set<string>)
  {
    && Evictions(cache.script) + risk <= evicted
    && Provided(SafeIds(floating, cache, risk), evicted, before) && stored <= SafeIds(floating, cache, risk) + evicted
  }

  lemma KeptOn(floating: set<string>, was: Cache, floating': set<string>, now: Cache, risk: set<string>,
               stored: set<string>, before: seq<Option<string>>, evicted: set<string>, id: Option<string>)
    requires Kept(floating, was, risk, stored, before, evicted) && Onward(was, now, risk) && floating <= floating'
    requires id.Some? ==> id.value in floating' + now.entries.Keys
    ensures Kept(floating', now, risk, stored, before, evicted)
    ensures Kept(floating', now, risk, stored, before + [id], evicted)
  {
    StaySafe(floating, was, now, risk, risk);
  }

  // The turn of a covered pipeline.
  method BuildEntry(store: ObjectStore, run: Runner, ghost D: Denotation, p: Pipeline,
                    ghost stored: set<string>, ghost before: seq<Option<string>>, ghost evicted: set<string>)
    returns (r: Outcome)
    requires store.Valid(D) && Respects(run, D, p) && Covered(p, stored, before)
    requires store.spare >= 0 ==> Need(store.weigh, D, p, 0) <= store.spare
    requires Kept(store.floating.Keys, store.cache, store.risk, stored, before, evicted)
    modifies store`objs, store`cache, store`faults, store`floating, store`own, store`spare
    ensures store.Valid(D) && Spent(old(store.spare), store.spare, Need(store.weigh, D, p, 0))
    ensures Lacking(r) ==> exists id :: id in evicted && (id in stored || Wants(p, stored, id))
    ensures !Lacking(r) && !r.StageFailed? ==>
      Kept(store.floating.Keys, store.cache, store.risk, stored, before + [p.Id()], evicted)
    ensures old(store.floating.Keys) == {} ==>
      Turned(old(store.cache), store.cache, p, r) && (!r.Built? ==> store.floating.Keys == {})
    ensures old(store.faults) == [] ==> store.faults == [] && !r.StageFailed?
    ensures Stranded(old(store.floating.Keys), old(store.cache), p) ==> r.NoBuildTree?
    ensures Greedy(store, D, p, old(store.floating.Keys), old(store.cache)) && old(store.faults) == [] ==>
      && r.Built? && Swept(store, D, p, old(store.cache), store.cache)
      && store.floating.Keys == old(store.floating.Keys) + {p.Id().value}
  {
    r := BuildStages(store, run, D, p);
    if Lacking(r) {
      var safe := SafeIds(old(store.floating.Keys), old(store.cache), store.risk);
      var id := LackHasCause(p, stored, before, r, safe, evicted);
    } else if !r.StageFailed? {
      KeptOn(old(store.floating.Keys), old(store.cache), store.floating.Keys, store.cache, store.risk,
             stored, before, evicted, p.Id());
    }
    assert old(store.floating.Keys) == {} ==> old(store.cache.Gone() - store.floating.Keys) == old(store.cache).Gone();
  }

  function Ids(ps: seq<Pipeline>): (ids: seq<Option<string>>)
    ensures |ids| == |ps| && forall i :: 0 <= i < |ps| ==> ids[i] == ps[i].Id()
  {
    seq(|ps|, i requires 0 <= i < |ps| => ps[i].Id())
  }

  // Each pipeline needs only what is stored or comes before it.
  ghost predicate CoveredInOrder(ps: seq<Pipeline>, stored: set<string>) {
    forall i :: 0 <= i < |ps| ==> CoveredAt(ps, stored, i)
  }

  ghost predicate CoveredAt(ps: seq<Pipeline>, stored: set<string>, i: int)
    requires 0 <= i < |ps|
  {
    Covered(ps[i], stored, Ids(ps)[..i])
  }

  ghost predicate CanBuild(run: Runner, D: Denotation, ps: seq<Pipeline>, stored: set<string>) {
    CoveredInOrder(ps, stored) && forall i :: 0 <= i < |ps| ==> Respects(run, D, ps[i])
  }

  // The parts of the store a plan depends on.
  datatype Now = Now(floating: set<string>, cache: Cache, risk: set<string>, spare: int, calm: bool)

  ghost function Current(store: ObjectStore): Now
    reads store
  {
    Now(store.floating.Keys, store.cache, store.risk, store.spare, store.faults == [])
  }

  // What a plan starts from: what was stored, what may be evicted, how the script is known
  // to end it, if it is, and whether no stage fails.
  datatype Start = Start(stored: set<string>, evicted: set<string>, doom: Option<Doom>, calm: bool)

  // The first pipeline will take away what the second one needs.
  ghost predicate ToCorner(store: ObjectStore, D: Denotation, ps: seq<Pipeline>, floating: set<string>, cache: Cache) {
    |ps| >= 2 && Cornered(store, D, ps[0], ps[1], floating, cache)
  }

  // Where a plan stands that is known to fail so: its first turn lies ahead, or its
  // second one is next.
  datatype Corner = Free | Ahead | Next

  ghost predicate OnCourse(corner: Corner, store: ObjectStore, D: Denotation, ps: seq<Pipeline>, i: nat, now: Now) {
    match corner
    case Free => true
    case Ahead => i == 0 && now.calm && ToCorner(store, D, ps, now.floating, now.cache)
    case Next => i < |ps| && Stranded(now.floating, now.cache, ps[i])
  }

  ghost function RoomFrom(store: ObjectStore, D: Denotation, ps: seq<Pipeline>, i: nat): nat
    requires i <= |ps|
  {
    Total(store.weigh, D, ps, i)
  }

  ghost function DoomFrom(script: seq<Change>, ps: seq<Pipeline>, i: nat): Option<Doom>
    requires i <= |ps|
  {
    Doomed(script, ps[i..])
  }

  // Before the turn of `ps[i]`.
  ghost predicate Ready(store: ObjectStore, D: Denotation, ps: seq<Pipeline>, i: nat, start: Start, now: Now)
    requires i <= |ps|
  {
    && Kept(now.floating, now.cache, now.risk, start.stored, Ids(ps)[..i], start.evicted)
    && (now.spare >= 0 ==> RoomFrom(store, D, ps, i) <= now.spare)
    && (start.doom.Some? ==> now.floating == {} && DoomFrom(now.cache.script, ps, i) == start.doom)
    && (start.calm ==> now.calm)
  }

  // Why a plan could not be built.
  ghost predicate Explained(r: Outcome, ps: seq<Pipeline>, start: Start) {
    && (start.calm ==> !r.StageFailed?)
    && (Lacking(r) ==> exists id :: id in start.evicted && (id in start.stored || Wanted(ps, start.stored, id)))
    && (start.doom.Some? ==> Fails(r, start.doom.value))
  }

  lemma TurnReady(store: ObjectStore, D: Denotation, ps: seq<Pipeline>, i: nat, start: Start, was: Now, now: Now,
                  r: Outcome)
    requires i < |ps| && Ready(store, D, ps, i, start, was) && !Lacking(r) && !r.StageFailed?
    requires Kept(now.floating, now.cache, now.risk, start.stored, Ids(ps)[..i] + [ps[i].Id()], start.evicted)
    requires Spent(was.spare, now.spare, Need(store.weigh, D, ps[i], 0)) && (was.calm ==> now.calm)
    requires was.floating == {} ==> Turned(was.cache, now.cache, ps[i], r) && (!r.Built? ==> now.floating == {})
    ensures Ready(store, D, ps, i + 1, start, now)
  {
    assert ps[i..] == [ps[i]] + ps[i + 1..];
    assert Ids(ps)[..i + 1] == Ids(ps)[..i] + [ps[i].Id()];
    if start.doom.Some? {
      DoomTurn(was.cache, now.cache, ps[i], ps[i + 1..], r);
    }
  }

  lemma TurnExplained(store: ObjectStore, D: Denotation, ps: seq<Pipeline>, i: nat, start: Start, was: Now, now: Now,
                      r: Outcome)
    requires i < |ps| && Ready(store, D, ps, i, start, was) && (Lacking(r) || r.StageFailed?)
    requires Lacking(r) ==> exists id :: id in start.evicted && (id in start.stored || Wants(ps[i], start.stored, id))
    requires was.floating == {} ==> Turned(was.cache, now.cache, ps[i], r)
    requires was.calm ==> !r.StageFailed?
    ensures Explained(r, ps, start)
  {
    assert ps[i..] == [ps[i]] + ps[i + 1..];
    if start.doom.Some? {
      DoomTurn(was.cache, now.cache, ps[i], ps[i + 1..], r);
    }
    if Lacking(r) {
      var id :| id in start.evicted && (id in start.stored || Wants(ps[i], start.stored, id));
      assert id in start.stored || Wanted(ps, start.stored, id);
    }
  }

  method BuildTurn(store: ObjectStore, run: Runner, ghost D: Denotation, ps: seq<Pipeline>, i: nat, ghost start: Start,
                   ghost corner: Corner)
    returns (r: Outcome, ghost now: Now, ghost corner': Corner)
    requires i < |ps| && CanBuild(run, D, ps, start.stored) && store.Valid(D)
    requires Ready(store, D, ps, i, start, Current(store)) && OnCourse(corner, store, D, ps, i, Current(store))
    modifies store`objs, store`cache, store`faults, store`floating, store`own, store`spare
    ensures store.Valid(D) && now == Current(store)
    ensures if Lacking(r) || r.StageFailed? then Explained(r, ps, start) else Ready(store, D, ps, i + 1, start, now)
    ensures match corner
      case Free => corner'.Free?
      case Ahead => !Lacking(r) && !r.StageFailed? && corner'.Next? && OnCourse(corner', store, D, ps, i + 1, now)
      case Next => r.NoBuildTree?
  {
    ghost var was := Current(store);
    assert CoveredAt(ps, start.stored, i);
    r := BuildEntry(store, run, D, ps[i], start.stored, Ids(ps)[..i], start.evicted);
    now := Current(store);
    if Lacking(r) || r.StageFailed? {
      TurnExplained(store, D, ps, i, start, was, now, r);
    } else {
      TurnReady(store, D, ps, i, start, was, now, r);
    }
    corner' := if corner.Ahead? then Next else Free;
    if corner.Ahead? {
      CorneredIsStranded(store, D, ps[0], ps[1], was.floating, was.cache, now.cache);
    }
  }

  // After the last turn.
  lemma AllBuilt(store: ObjectStore, D: Denotation, ps: seq<Pipeline>, start: Start, now: Now)
    requires Ready(store, D, ps, |ps|, start, now)
    ensures Explained(Built, ps, start)
    ensures Kept(now.floating, now.cache, now.risk, start.stored, Ids(ps), start.evicted)
  {
    assert Ids(ps)[..|ps|] == Ids(ps);
  }

  // The loop of `Manifest.build`, over the pipelines the names stand for.
  method BuildList(store: ObjectStore, run: Runner, ghost D: Denotation, ps: seq<Pipeline>, ghost start: Start)
    returns (r: Outcome)
    requires CanBuild(run, D, ps, start.stored) && store.Valid(D) && Ready(store, D, ps, 0, start, Current(store))
    modifies store`objs, store`cache, store`faults, store`floating, store`own, store`spare
    ensures store.Valid(D) && (Lacking(r) || r.StageFailed? || r.Built?) && Explained(r, ps, start)
    ensures old(store.faults) == [] && ToCorner(store, D, ps, old(store.floating.Keys), old(store.cache)) ==>
      r.NoBuildTree?
    ensures r.Built? ==> Kept(store.floating.Keys, store.cache, store.risk, start.stored, Ids(ps), start.evicted)
  {
    var i := 0;
    ghost var now := Current(store);
    ghost var corner := if now.calm && ToCorner(store, D, ps, now.floating, now.cache) then Ahead else Free;
    ghost var cornered := corner.Ahead?;
    while i < |ps|
      invariant 0 <= i <= |ps| && store.Valid(D)
      invariant now == Current(store) && Ready(store, D, ps, i, start, now)
      invariant OnCourse(corner, store, D, ps, i, now) && (cornered ==> !corner.Free?)
    {
      r, now, corner := BuildTurn(store, run, D, ps, i, start, corner);
      if Lacking(r) || r.StageFailed? {
        return;
      }
      i := i + 1;
    }
    AllBuilt(store, D, ps, start, now);
    r := Built;
  }

  // The pipelines of a plan; `self[name]` never fails for these names.
  function Resolve(m: Manifest, names: seq<string>): (ps: seq<Pipeline>)
    requires forall i :: 0 <= i < |names| ==> m.Get(names[i]).Some?
    ensures |ps| == |names| && forall i :: 0 <= i < |ps| ==> ps[i] == m.Get(names[i]).value
  {
    seq(|names|, i requires 0 <= i < |names| => m.Get(names[i]).value)
  }

  lemma PlanCovered(m: Manifest, stored: set<string>, targets: seq<string>, names: seq<string>)
    requires IsPlan(m, stored, targets, names) && RefsAreIds(m)
    ensures forall i :: 0 <= i < |names| ==> m.Get(names[i]).Some? && m.Get(names[i]).value in m.pipelines
    ensures Ids(Resolve(m, names)) == Depsolve.PlanIds(m, names)
    ensures CoveredInOrder(Resolve(m, names), stored)
  {
    forall i | 0 <= i < |names| ensures m.Get(names[i]).Some? && m.Get(names[i]).value in m.pipelines {
      EntryCovered(m, stored, targets, names, i);
    }
    var ps := Resolve(m, names);
    assert Ids(ps) == Depsolve.PlanIds(m, names);
    forall i | 0 <= i < |ps| ensures CoveredAt(ps, stored, i) {
      EntryCovered(m, stored, targets, names, i);
    }
  }

  // What a plan relies on: what was stored, and the planned trees that are needed.
  ghost predicate Relied(m: Manifest, stored: set<string>, names: seq<string>, id: string) {
    id in stored || exists i :: 0 <= i < |names| && m.Get(names[i]).Some? && Wants(m.Get(names[i]).value, stored, id)
  }

  // A lack is explained by something the plan relies on that may be evicted.
  ghost predicate HasCause(r: Outcome, m: Manifest, stored: set<string>, names: seq<string>, evicted: set<string>) {
    Lacking(r) ==> exists id :: id in evicted && Relied(m, stored, names, id)
  }

  /** Building a plan in order never lacks a build tree or an input, if what was stored
      when the plan was made, and the planned trees that other pipelines of the plan
      need, are not evicted: by other processes, or by the commits of this build -- which
      evict nothing when there is room for all checkpoints, and in an unlimited cache.
      Everything else may be added and evicted. */
  method BuildAll(store: ObjectStore, run: Runner, ghost D: Denotation, m: Manifest, names: seq<string>,
                  ghost stored: set<string>, ghost targets: seq<string>)
    returns (r: Outcome)
    requires store.Valid(D) && RefsAreIds(m) && forall p :: p in m.pipelines ==> Respects(run, D, p)
    requires IsPlan(m, stored, targets, names) && forall id :: id in stored ==> store.Visible(id)
    modifies store
    ensures store.Valid(D) && forall i :: 0 <= i < |names| ==> m.Get(names[i]).Some?
    ensures var room := Total(store.weigh, D, Resolve(m, names), 0);
      HasCause(r, m, stored, names, AtRisk(old(store.cache), store.limit, room))
    ensures Lacking(r) || r.StageFailed? || r.Built?
    ensures old(store.faults) == [] ==> !r.StageFailed?
    ensures var room := Total(store.weigh, D, Resolve(m, names), 0);
      r.Built? ==> Kept(store.floating.Keys, store.cache, store.risk, stored, Depsolve.PlanIds(m, names),
                        AtRisk(old(store.cache), store.limit, room))
    ensures var doom := Doomed(old(store.cache.script), Resolve(m, names));
      old(store.floating.Keys) == {} && doom.Some? ==> Fails(r, doom.value)
    ensures var cornered := ToCorner(store, D, Resolve(m, names), old(store.floating.Keys), old(store.cache));
      cornered && old(store.faults) == [] ==> r.NoBuildTree?
  {
    PlanCovered(m, stored, targets, names);
    var ps := Resolve(m, names);
    ghost var start := Enter(store, D, ps, stored);
    r := BuildList(store, run, D, ps, start);
    if Lacking(r) {
      ghost var id :| id in start.evicted && (id in stored || Wanted(ps, stored, id));
      assert Relied(m, stored, names, id);
    }
  }

  // Promise the room there is.
  ghost method Enter(store: ObjectStore, D: Denotation, ps: seq<Pipeline>, stored: set<string>) returns (start: Start)
    requires store.Valid(D) && forall id :: id in stored ==> store.Visible(id)
    modifies store`spare, store`risk
    ensures store.Valid(D) && start.stored == stored && Ready(store, D, ps, 0, start, Current(store))
    ensures start.evicted == AtRisk(store.cache, store.limit, Total(store.weigh, D, ps, 0))
    ensures start.calm == (store.faults == [])
    ensures start.doom == if store.floating.Keys == {} then Doomed(store.cache.script, ps) else None
  {
    var total := Total(store.weigh, D, ps, 0);
    if store.cache.RoomFor(store.limit, total) {
      store.spare, store.risk := total, {};
    } else {
      store.spare, store.risk := -1, Union(store.cache.purges);
    }
    start := Start(stored, Evictions(store.cache.script) + store.risk,
                   if store.floating.Keys == {} then Doomed(store.cache.script, ps) else None,
                   store.faults == []);
    assert ps[0..] == ps && Ids(ps)[..0] == [];
  }

  // The tree of a target is stored, or its pipeline in the plan.
  lemma TargetPlanned(m: Manifest, stored: set<string>, targets: seq<string>, names: seq<string>, t: string)
    requires IsPlan(m, stored, targets, names) && t in targets
    ensures m.Get(t).Some?
    ensures (Contains(stored, m.Get(t).value.Id()) || m.Get(t).value.Id() in Depsolve.PlanIds(m, names))
  {
    Depsolve.LookupHas(m, targets, m.Get(t));
    Depsolve.ReachTarget(m, stored, targets, m.Get(t));
    if !Contains(stored, m.Get(t).value.Id()) {
      assert Depsolve.Unstored(stored, m.Get(t));
    }
  }

  // The tree of a target is there to stay.
  ghost predicate TargetSafe(m: Manifest, t: string, floating: set<string>, cache: Cache) {
    m.Get(t).Some? && (m.Get(t).value.stages != [] ==> m.Get(t).value.Id().value in SafeIds(floating, cache, {}))
  }

  // A part of the pipelines takes no more room than all of them.
  lemma {:induction false} PartTakesLess(weigh: Tree -> nat, D: Denotation, ps: seq<Pipeline>, qs: seq<Pipeline>)
    requires (forall q :: q in qs ==> q in ps) && forall i, j :: 0 <= i < j < |qs| ==> qs[i] != qs[j]
    ensures Sum(weigh, D, qs) <= Sum(weigh, D, ps)
    decreases |ps|
  {
    if qs != [] {
      assert qs[0] in ps;
      var n := |ps| - 1;
      var p := ps[n];
      if i :| 0 <= i < |qs| && qs[i] == p {
        var rest := qs[..i] + qs[i + 1..];
        SumWithout(weigh, D, qs, i);
        forall q | q in rest ensures q in ps[..n] {
          assert q in ps && q != p;
        }
        PartTakesLess(weigh, D, ps[..n], rest);
      } else {
        assert forall q :: q in qs ==> q in ps[..n];
        PartTakesLess(weigh, D, ps[..n], qs);
      }
    }
  }

  ghost function Sum(weigh: Tree -> nat, D: Denotation, ps: seq<Pipeline>): nat {
    if ps == [] then 0 else Sum(weigh, D, ps[..|ps| - 1]) + Need(weigh, D, ps[|ps| - 1], 0)
  }

  lemma {:induction false} SumWithout(weigh: Tree -> nat, D: Denotation, qs: seq<Pipeline>, i: nat)
    requires i < |qs|
    ensures Sum(weigh, D, qs) == Sum(weigh, D, qs[..i] + qs[i + 1..]) + Need(weigh, D, qs[i], 0)
  {
    var n, rest := |qs| - 1, qs[..i] + qs[i + 1..];
    if i == n {
      assert rest == qs[..n];
    } else {
      SumWithout(weigh, D, qs[..n], i);
      assert rest[..|rest| - 1] == qs[..n][..i] + qs[..n][i + 1..] && rest[|rest| - 1] == qs[n];
    }
  }

  lemma {:induction false} TotalIsSum(weigh: Tree -> nat, D: Denotation, ps: seq<Pipeline>, i: nat)
    requires i <= |ps|
    ensures Sum(weigh, D, ps) == Sum(weigh, D, ps[..i]) + Total(weigh, D, ps, i)
    decreases |ps| - i
  {
    if i == |ps| {
      assert ps[..i] == ps;
    } else {
      assert ps[..i + 1][..i] == ps[..i];
      TotalIsSum(weigh, D, ps, i + 1);
    }
  }

  // The entries of a plan are different pipelines of the manifest.
  lemma PlanTakesLess(weigh: Tree -> nat, D: Denotation, m: Manifest, stored: set<string>, targets: seq<string>,
                      names: seq<string>)
    requires IsPlan(m, stored, targets, names) && RefsAreIds(m)
    ensures forall i :: 0 <= i < |names| ==> m.Get(names[i]).Some?
    ensures Total(weigh, D, Resolve(m, names), 0) <= Sum(weigh, D, m.pipelines)
  {
    PlanCovered(m, stored, targets, names);
    var qs := Resolve(m, names);
    forall i, j | 0 <= i < j < |qs| ensures qs[i] != qs[j] {
      assert Depsolve.PlanIds(m, names)[i] != Depsolve.PlanIds(m, names)[j];
    }
    assert forall q :: q in qs ==> q in m.pipelines;
    PartTakesLess(weigh, D, m.pipelines, qs);
    TotalIsSum(weigh, D, qs, 0);
    assert qs[..0] == [];
  }

  // More room is no more risk.
  lemma RoomierIsSafer(cache: Cache, limit: int, less: nat, more: nat)
    requires less <= more
    ensures AtRisk(cache, limit, less) <= AtRisk(cache, limit, more)
  {
  }

  // What may be evicted while pipelines of `m` are built.
  ghost function MayGo(cache: Cache, limit: int, weigh: Tree -> nat, D: Denotation, m: Manifest): set<string> {
    AtRisk(cache, limit, Sum(weigh, D, m.pipelines))
  }

  // How building a plan ends.
  ghost predicate Finished(store: ObjectStore, m: Manifest, stored: set<string>, targets: seq<string>,
                           names: seq<string>, risk: set<string>, r: Outcome)
    reads store
  {
    && (Lacking(r) || r.StageFailed? || r.Built?) && HasCause(r, m, stored, names, risk)
    && (r.Built? && risk == {} ==>
          forall t :: t in targets ==> TargetSafe(m, t, store.floating.Keys, store.cache))
  }

  // `BuildAll`, with a bound on the room that does not depend on the plan.
  method BuildChosen(store: ObjectStore, run: Runner, ghost D: Denotation, m: Manifest, names: seq<string>,
                     ghost stored: set<string>, ghost targets: seq<string>)
    returns (r: Outcome)
    requires store.Valid(D) && RefsAreIds(m) && forall p :: p in m.pipelines ==> Respects(run, D, p)
    requires IsPlan(m, stored, targets, names) && forall id :: id in stored ==> store.Visible(id)
    modifies store
    ensures store.Valid(D)
    ensures Finished(store, m, stored, targets, names, MayGo(old(store.cache), store.limit, store.weigh, D, m), r)
    ensures old(store.faults) == [] ==> !r.StageFailed?
  {
    PlanTakesLess(store.weigh, D, m, stored, targets, names);
    ghost var room := Total(store.weigh, D, Resolve(m, names), 0);
    RoomierIsSafer(store.cache, store.limit, room, Sum(store.weigh, D, m.pipelines));
    r := BuildAll(store, run, D, m, names, stored, targets);
    if r.Built? && AtRisk(old(store.cache), store.limit, room) == {} {
      forall t | t in targets ensures TargetSafe(m, t, store.floating.Keys, store.cache) {
        TargetPlanned(m, stored, targets, names, t);
      }
    }
  }

  /** Planning and building together, from an empty run: it fails at once exactly when a
      reference leads nowhere; it lacks a tree only if one it relies on is evicted, by
      others or, unless there is room for all checkpoints of the manifest, by a commit;
      and when it succeeds and nothing can be evicted, the tree of every target is there to
      stay. */
  method PlanAndBuild(store: ObjectStore, run: Runner, ghost D: Denotation, m: Manifest, targets: seq<string>,
                      ghost rank: Pipeline -> nat)
    returns (r: Option<Outcome>, ghost names: seq<string>)
    requires store.Valid(D) && store.floating == map[]
    requires m.Valid() && RefsAreIds(m) && forall p :: p in m.pipelines ==> Respects(run, D, p)
    requires var stored := store.cache.entries.Keys;
      Depsolve.Acyclic(m, stored, Depsolve.ReachableSet(m, stored, targets), rank)
    modifies store
    ensures store.Valid(D)
    ensures r.None? <==> Depsolve.MissingReachable(m, old(store.cache.entries.Keys), targets)
    ensures r.Some? ==> IsPlan(m, old(store.cache.entries.Keys), targets, names)
    ensures r.Some? ==>
      Finished(store, m, old(store.cache.entries.Keys), targets, names,
               MayGo(old(store.cache), store.limit, store.weigh, D, m), r.value)
    ensures r.Some? && old(store.faults) == [] ==> !r.value.StageFailed?
  {
    var stored := store.cache.entries.Keys;
    names := [];
    var plan := Depsolve.Depsolve(m, stored, targets, rank);
    if plan.None? {
      return None, names;
    }
    names := plan.value;
    var o := BuildChosen(store, run, D, m, plan.value, stored, targets);
    r := Some(o);
  }
}
