/**
  The whole way from a manifest description to the exported trees
  (osbuild/main_cli.py:55-63, 187-256): load it, look the targets up, plan, build on a
  cache that holds what earlier builds and other processes left there, and export.
 */
module FromDescription {
  import opened Wrappers
  import opened ContentId
  import opened Addressing
  import opened Builder
  import opened BuildPlan
  import V2 = ManifestV2
  import M = Manifests
  import Depsolve
  import Trees

  // The pipelines of a loaded manifest, as the planner and the builder see them.
  function Seen(h: string -> string, options: Options, m: V2.Manifest): M.Manifest {
    M.Manifest(View(IdOf(h), options, m))
  }

  // What ids stand for, once `m` is known; `others` is what ids of no stage of `m` do.
  ghost function Sense(h: string -> string, run: Trees.Runner, options: Options, m: V2.Manifest,
                       others: Trees.Denotation): Trees.Denotation
  {
    Trees.Meaning(run, Seen(h, options, m).pipelines, others)
  }

  // What loading does not check: mount targets are no device ids, names are no ids,
  // builds given by id lead back, inputs have stages.
  ghost predicate Sensible(h: string -> string, descs: seq<V2.PipelineDesc>, m: V2.Manifest) {
    && AllInside(m, Plain(h)) && NamesAreNoIds(IdOf(h), m)
    && BuildsBack(IdOf(h), descs, m) && NoEmptyInputs(m)
  }

  // The cache, and what others add to it, holds the tree of each id.
  ghost predicate Trusted(D: Trees.Denotation, cache: Cache) {
    Honest(D, cache.entries) && HonestScript(D, cache.script)
  }

  // -------------------------------------------------- only a target can be missing

  lemma NeedsExist(sid: IdFunction, options: Options, m: V2.Manifest, i: nat, stored: set<string>)
    requires NamesAreNoIds(sid, m) && i < |m| && RefersBack(sid, m, i)
    ensures None !in Depsolve.Needs(M.Manifest(View(sid, options, m)), stored, View(sid, options, m)[i])
  {
    var v := M.Manifest(View(sid, options, m));
    var p := v.pipelines[i];
    if p.HasBuild() {
      GetsEarlier(sid, options, m, i, p.build.value);
    }
    if None in Depsolve.StageNeeds(v, stored, p.stages) {
      Depsolve.StageNeedsMeaning(v, stored, p.stages, None);
      var k :| Depsolve.TakenBy(v, stored, p.stages, None, k);
      var d :| d in p.stages[k].deps && v.Get(d) == None;
      assert d in DepSet(m[i].stages[k]);
      GetsEarlier(sid, options, m, i, d);
    }
  }

  lemma OnlyTargetsMiss(v: M.Manifest, stored: set<string>, targets: seq<string>)
    requires forall p :: p in v.pipelines ==> None !in Depsolve.Needs(v, stored, p)
    ensures Depsolve.MissingReachable(v, stored, targets) <==> exists t :: t in targets && v.Get(t).None?
  {
    Depsolve.LookupHas(v, targets, None);
    if None in v.Lookup(targets) {
      Depsolve.ReachTarget(v, stored, targets, None);
    } else if Depsolve.MissingReachable(v, stored, targets) {
      var path: seq<Option<M.Pipeline>> :| Depsolve.IsPath(v, stored, targets, path) && path[|path| - 1] == None;
      var n := |path| - 1;
      assert Depsolve.Unstored(stored, path[n - 1]) && path[n - 1 + 1] in Depsolve.Needs(v, stored, path[n - 1].value);
      assert Depsolve.IsPath(v, stored, targets, path[..n]) && path[..n][|path[..n]| - 1] == path[n - 1];
      Depsolve.ReachableKnown(v, stored, targets, path[n - 1].value);
    }
  }

  lemma LoadedIsComplete(h: string -> string, options: Options, m: V2.Manifest, stored: set<string>,
                         targets: seq<string>)
    requires NamesAreNoIds(IdOf(h), m) && Backward(IdOf(h), m)
    ensures var v := Seen(h, options, m);
      Depsolve.MissingReachable(v, stored, targets) <==> exists t :: t in targets && v.Get(t).None?
  {
    var v := Seen(h, options, m);
    forall p | p in v.pipelines ensures None !in Depsolve.Needs(v, stored, p) {
      var i: nat :| i < |v.pipelines| && v.pipelines[i] == p;
      assert RefersBack(IdOf(h), m, i);
      NeedsExist(IdOf(h), options, m, i, stored);
    }
    OnlyTargetsMiss(v, stored, targets);
  }

  // ---------------------------------------------------------------------- export

  // The tree of a target, as a build from scratch makes it.
  ghost predicate IsTreeOf(run: Trees.Runner, D: Trees.Denotation, v: M.Manifest, t: string, tree: Trees.Tree) {
    && v.Get(t).Some? && v.Get(t).value.stages != []
    && tree == Trees.FromScratch(run, D, v.Get(t).value, |v.Get(t).value.stages|)
  }

  ghost predicate AllThere(v: M.Manifest, targets: seq<string>, floating: set<string>, cache: Cache) {
    forall t :: t in targets ==> TargetSafe(v, t, floating, cache) && v.Get(t).value.stages != []
  }

  // Copy the trees of the targets out of the store; fails if one is not there.
  method Export(store: ObjectStore, run: Trees.Runner, ghost D: Trees.Denotation, v: M.Manifest, targets: seq<string>)
    returns (r: Option<map<string, Trees.Tree>>)
    requires store.Valid(D) && (forall p :: p in v.pipelines ==> Trees.Respects(run, D, p))
    requires forall t :: t in targets ==> v.Get(t).Some?
    modifies store`cache
    ensures store.Valid(D)
    ensures r.Some? ==> forall t :: t in targets ==> t in r.value && IsTreeOf(run, D, v, t, r.value[t])
    ensures old(AllThere(v, targets, store.floating.Keys, store.cache)) ==> r.Some?
  {
    var trees: map<string, Trees.Tree> := map[];
    var i := 0;
    while i < |targets|
      invariant 0 <= i <= |targets| && store.Valid(D)
      invariant forall t :: t in targets[..i] ==> t in trees && IsTreeOf(run, D, v, t, trees[t])
      invariant old(AllThere(v, targets, store.floating.Keys, store.cache)) ==>
        AllThere(v, targets, store.floating.Keys, store.cache)
    {
      var p := v.Get(targets[i]).value;
      if p.stages == [] {
        return None;
      }
      ghost var before := store.cache;
      var obj := store.Get(D, p.Id().value);
      StaySafe(store.floating.Keys, before, store.cache, {}, {});
      if obj.None? {
        return None;
      }
      Trees.ScratchIsDenotation(run, D, p, |p.stages|);
      trees := trees[targets[i] := obj.value.tree];
      assert targets[..i + 1] == targets[..i] + [targets[i]];
      i := i + 1;
    }
    assert targets[..i] == targets;
    r := Some(trees);
  }

  // ------------------------------------------------------------------ all together

  datatype End =
    | NotLoaded
    | UnknownTarget
    | Failed(outcome: Outcome)
    | NotThere                                     // the tree of a target is not in the store
    | Exported(trees: map<string, Trees.Tree>)

  predicate AllKnown(v: M.Manifest, targets: seq<string>) {
    forall t :: t in targets ==> v.Get(t).Some?
  }

  // The limit of the cache, the space trees take, and which stages fail.
  datatype Machine = Machine(limit: int, weigh: Trees.Tree -> nat, faults: seq<bool>)

  // Building failed because a stage did, or a tree the plan relies on may be evicted.
  ghost predicate HasReason(D: Trees.Denotation, v: M.Manifest, cache: Cache, on: Machine, targets: seq<string>,
                            names: seq<string>, r: Outcome)
  {
    var stored := cache.entries.Keys;
    if r.StageFailed? then on.faults != []
    else
      && Lacking(r) && IsPlan(v, stored, targets, names)
      && HasCause(r, v, stored, names, MayGo(cache, on.limit, on.weigh, D, v))
  }

  // Nothing can go wrong.
  ghost predicate Safe(D: Trees.Denotation, v: M.Manifest, cache: Cache, on: Machine, targets: seq<string>) {
    && on.faults == [] && MayGo(cache, on.limit, on.weigh, D, v) == {}
    && forall t :: t in targets ==> v.Get(t).Some? && v.Get(t).value.stages != []
  }

  // How building known targets ends.
  ghost predicate Ends(run: Trees.Runner, D: Trees.Denotation, v: M.Manifest, cache: Cache, on: Machine,
                       targets: seq<string>, names: seq<string>, r: End)
  {
    && (r.Failed? ==> HasReason(D, v, cache, on, targets, names, r.outcome))
    && (r.Exported? ==> forall t :: t in targets ==> t in r.trees && IsTreeOf(run, D, v, t, r.trees[t]))
    && (Safe(D, v, cache, on, targets) ==> r.Exported?)
  }

  // Plan, build and export.
  method BuildLoaded(run: Trees.Runner, ghost D: Trees.Denotation, v: M.Manifest, cache: Cache, on: Machine,
                     targets: seq<string>, ghost rank: M.Pipeline -> nat)
    returns (r: End, ghost names: seq<string>)
    requires Trusted(D, cache) && v.Valid() && RefsAreIds(v)
    requires forall p :: p in v.pipelines ==> Trees.Respects(run, D, p)
    requires AllKnown(v, targets) && !Depsolve.MissingReachable(v, cache.entries.Keys, targets)
    requires var stored := cache.entries.Keys;
      Depsolve.Acyclic(v, stored, Depsolve.ReachableSet(v, stored, targets), rank)
    ensures !r.NotLoaded? && !r.UnknownTarget? && Ends(run, D, v, cache, on, targets, names, r)
  {
    var store := new ObjectStore(cache, on.limit, on.weigh, on.faults);
    var outcome;
    outcome, names := PlanAndBuild(store, run, D, v, targets, rank);
    if !outcome.value.Built? {
      if Lacking(outcome.value) && MayGo(cache, on.limit, on.weigh, D, v) == {} {
        assert false;
      }
      return Failed(outcome.value), names;
    }
    var trees := Export(store, run, D, v, targets);
    r := if trees.Some? then Exported(trees.value) else NotThere;
  }

  // Whatever the description is loaded as, it is sensible and the cache can be trusted.
  ghost predicate Expected(h: string -> string, run: Trees.Runner, host: string, sources: set<string>,
                           descs: seq<V2.PipelineDesc>, options: Options, cache: Cache, others: Trees.Denotation)
  {
    forall raw, m :: V2.Loaded(IdOf(h), host, sources, descs, raw, m) ==>
      Sensible(h, descs, m) && Trusted(Sense(h, run, options, m, others), cache)
  }

  /** From a description to the trees of its targets.  What is exported is, for each
      target, the tree of a build from scratch, whatever was in the cache and whatever
      other processes do.  Otherwise the description cannot be loaded, a target is
      unknown, a stage failed, or a tree may have been evicted; with stages that do not
      fail, room for all checkpoints and nobody who evicts, every description that loads
      is built and all its targets that have stages are exported. */
  method BuildDescription(h: string -> string, run: Trees.Runner, host: string, sources: set<string>,
                          descs: seq<V2.PipelineDesc>, options: Options, cache: Cache, on: Machine,
                          targets: seq<string>, ghost others: Trees.Denotation)
    returns (r: End, m: Option<V2.Manifest>, ghost raw: V2.Manifest, ghost names: seq<string>)
    requires Injective(h) && forall i :: 0 <= i < |descs| ==> V2.WellFormed(descs[i])
    requires Expected(h, run, host, sources, descs, options, cache, others)
    ensures r.NotLoaded? <==> m.None?
    ensures m.Some? ==> V2.Loaded(IdOf(h), host, sources, descs, raw, m.value)
    ensures r.UnknownTarget? <==> m.Some? && !AllKnown(Seen(h, options, m.value), targets)
    ensures m.Some? ==>
      Ends(run, Sense(h, run, options, m.value, others), Seen(h, options, m.value), cache, on, targets, names, r)
  {
    names := [];
    m, raw := V2.Load(IdOf(h), host, sources, descs);
    if m.None? {
      return NotLoaded, m, raw, names;
    }
    var v := Seen(h, options, m.value);
    if !AllKnown(v, targets) {
      return UnknownTarget, m, raw, names;
    }
    ghost var D := Sense(h, run, options, m.value, others);
    LoadedDenotes(h, run, host, sources, descs, raw, m.value, options, others);
    ghost var rank := LoadedIsBuildable(IdOf(h), host, sources, descs, raw, m.value, options);
    LoadedBackward(IdOf(h), host, sources, descs, raw, m.value);
    LoadedIsComplete(h, options, m.value, cache.entries.Keys, targets);
    r, names := BuildLoaded(run, D, v, cache, on, targets, rank);
  }
}
