/**
  From a loaded manifest to the one the planner and the builder see: because ids are
  hashes of recipes (osbuild/pipeline.py:97-111) and references are resolved among the
  pipelines before (osbuild/formats/v2.py:331-401), every id stands for one tree.
 */
module Addressing {
  import opened Wrappers
  import opened ContentId
  import V2 = ManifestV2
  import M = Manifests
  import Depsolve
  import Trees
  import BuildPlan

  // ---------------------------------------------------------------- what is seen

  // `Stage.dependencies` as a set.
  function DepSet(s: Stage): set<string> {
    set n, k | n in s.inputs && s.inputs[n].origin == V2.PIPELINE && k in s.inputs[n].refs :: k
  }

  ghost function Listed(names: set<string>): (r: seq<string>)
    ensures forall n :: n in r <==> n in names
  {
    if names == {} then []
    else
      var n :| n in names;
      [n] + Listed(names - {n})
  }

  // The order in which a set is iterated over.
  type Order = order: set<string> -> seq<string> | IsOrder(order)
    ghost witness s => Listed(s)

  ghost predicate IsOrder(order: set<string> -> seq<string>) {
    forall names: set<string>, n: string :: n in order(names) <==> n in names
  }

  // Which stages have a checkpoint, by pipeline and position, and the order of inputs.
  datatype Options = Options(marked: (string, int) -> bool, order: Order)

  function StageView(sid: IdFunction, options: Options, s: Stage, checkpoint: bool): M.Stage {
    M.Stage(sid(s), options.order(DepSet(s)), checkpoint)
  }

  function StageViews(sid: IdFunction, options: Options, name: string, stages: seq<Stage>): (r: seq<M.Stage>)
    ensures |r| == |stages|
    ensures forall k :: 0 <= k < |r| ==> r[k] == StageView(sid, options, stages[k], options.marked(name, k))
  {
    seq(|stages|, k requires 0 <= k < |stages| => StageView(sid, options, stages[k], options.marked(name, k)))
  }

  function PipelineView(sid: IdFunction, options: Options, p: V2.PipelineData): M.Pipeline {
    M.Pipeline(p.name, p.build, StageViews(sid, options, p.name, p.stages))
  }

  function View(sid: IdFunction, options: Options, m: V2.Manifest): (r: seq<M.Pipeline>)
    ensures |r| == |m| && forall i :: 0 <= i < |r| ==> r[i] == PipelineView(sid, options, m[i])
  {
    seq(|m|, i requires 0 <= i < |m| => PipelineView(sid, options, m[i]))
  }

  // ------------------------------------------------------------- what loading gives

  // The id of one of the pipelines before `i`.
  ghost predicate IdBefore(sid: IdFunction, m: V2.Manifest, i: int, id: string) {
    exists j :: 0 <= j < i && j < |m| && V2.Id(sid, m[j]) == Some(id)
  }

  // Every reference of pipeline `i` is the id of an earlier one, and its stages are
  // linked and share its build reference.
  ghost predicate RefersBack(sid: IdFunction, m: V2.Manifest, i: int)
    requires 0 <= i < |m|
  {
    && Linked(sid, m[i].stages)
    && (V2.Truthy(m[i].build) ==> IdBefore(sid, m, i, m[i].build.value))
    && forall k :: 0 <= k < |m[i].stages| ==>
         m[i].stages[k].build == m[i].build && forall d :: d in DepSet(m[i].stages[k]) ==> IdBefore(sid, m, i, d)
  }

  ghost predicate Backward(sid: IdFunction, m: V2.Manifest) {
    forall i :: 0 <= i < |m| ==> RefersBack(sid, m, i)
  }

  // No stage takes a pipeline without stages as an input; such an input has no id.
  ghost predicate NoEmptyInputs(m: V2.Manifest) {
    forall i, k :: 0 <= i < |m| && 0 <= k < |m[i].stages| ==> V2.Key(None) !in DepSet(m[i].stages[k])
  }

  // Build pipelines are given by name, or by the id of an earlier one.
  ghost predicate BuildsBack(sid: IdFunction, descs: seq<V2.PipelineDesc>, m: V2.Manifest) {
    |m| == |descs| && forall i :: 0 <= i < |m| ==> BuildsBackAt(sid, descs[i], m, i)
  }

  ghost predicate BuildsBackAt(sid: IdFunction, d: V2.PipelineDesc, m: V2.Manifest, i: int) {
    V2.Truthy(d.build) && !V2.ByName(d.build.value) ==> IdBefore(sid, m, i, d.build.value)
  }

  lemma ResolvesBefore(sid: IdFunction, m: V2.Manifest, i: nat, r: string)
    requires i < |m| && V2.Resolve(sid, m[..i], r).Some?
    ensures IdBefore(sid, m, i, V2.Resolve(sid, m[..i], r).value)
  {
    var j := V2.IndexOf(m[..i], r[5..]);
    assert m[..i][j] == m[j];
  }

  lemma DepsBefore(sid: IdFunction, sources: set<string>, m: V2.Manifest, i: nat, d: V2.StageDesc, s: Stage)
    requires i < |m| && V2.StageLoadable(m[..i], sources, d) && V2.StageLoaded(sid, m[..i], d, s)
    requires V2.Key(None) !in DepSet(s)
    ensures forall x :: x in DepSet(s) ==> IdBefore(sid, m, i, x)
  {
    forall x | x in DepSet(s) ensures IdBefore(sid, m, i, x) {
      var n :| n in s.inputs && s.inputs[n].origin == V2.PIPELINE && x in s.inputs[n].refs;
      assert V2.InputLoaded(sid, m[..i], d.inputs[n], s.inputs[n]) && V2.InputLoadable(m[..i], sources, d.inputs[n]);
      assert V2.CameFrom(sid, m[..i], d.inputs[n].Refs(), x, s.inputs[n].refs[x]);
      var r :| r in d.inputs[n].Refs() && V2.ByName(r) && V2.Key(V2.Resolve(sid, m[..i], r)) == x;
      ResolvesBefore(sid, m, i, r);
    }
  }

  lemma LoadedRefersBack(sid: IdFunction, host: string, sources: set<string>, descs: seq<V2.PipelineDesc>,
                         raw: V2.Manifest, i: nat)
    requires i < |raw| && |raw| == |descs| && V2.RawAt(sid, host, sources, descs, raw, i)
    requires NoEmptyInputs(raw) && BuildsBackAt(sid, descs[i], raw, i)
    ensures RefersBack(sid, raw, i)
  {
    var d, p := descs[i], raw[i];
    if V2.Truthy(p.build) && V2.ByName(d.build.value) {
      ResolvesBefore(sid, raw, i, d.build.value);
    }
    forall k | 0 <= k < |p.stages|
      ensures p.stages[k].build == p.build && forall x :: x in DepSet(p.stages[k]) ==> IdBefore(sid, raw, i, x)
    {
      DepsBefore(sid, sources, raw, i, d.stages[k], p.stages[k]);
    }
  }

  lemma SameIdBefore(sid: IdFunction, raw: V2.Manifest, m: V2.Manifest, i: int, id: string)
    requires V2.SamePipelines(raw, m)
    ensures IdBefore(sid, raw, i, id) <==> IdBefore(sid, m, i, id)
  {
    assert forall j :: 0 <= j < |m| ==> V2.Id(sid, raw[j]) == V2.Id(sid, m[j]);
  }

  // Pairing runners changes nothing here.
  lemma RunnersDoNotMatter(sid: IdFunction, raw: V2.Manifest, m: V2.Manifest)
    requires V2.SamePipelines(raw, m) && Backward(sid, raw)
    ensures Backward(sid, m)
  {
    forall i, x | 0 <= i < |m| && IdBefore(sid, raw, i, x) ensures IdBefore(sid, m, i, x) {
      SameIdBefore(sid, raw, m, i, x);
    }
    forall i | 0 <= i < |m| ensures RefersBack(sid, m, i) {
      assert RefersBack(sid, raw, i);
    }
  }

  lemma LoadedBackward(sid: IdFunction, host: string, sources: set<string>, descs: seq<V2.PipelineDesc>,
                       raw: V2.Manifest, m: V2.Manifest)
    requires V2.Loaded(sid, host, sources, descs, raw, m) && NoEmptyInputs(m) && BuildsBack(sid, descs, m)
    ensures Backward(sid, m)
  {
    assert NoEmptyInputs(raw) by {
      forall i | 0 <= i < |raw| ensures raw[i].stages == m[i].stages {
      }
    }
    forall i | 0 <= i < |raw| ensures RefersBack(sid, raw, i) {
      assert BuildsBackAt(sid, descs[i], m, i);
      if V2.Truthy(descs[i].build) && !V2.ByName(descs[i].build.value) {
        SameIdBefore(sid, raw, m, i, descs[i].build.value);
      }
      LoadedRefersBack(sid, host, sources, descs, raw, i);
    }
    RunnersDoNotMatter(sid, raw, m);
  }

  // ------------------------------------------------------ equal ids, equal recipes

  ghost predicate AllInside(m: V2.Manifest, plain: iset<Stage>) {
    forall i :: 0 <= i < |m| ==> Inside(m[i].stages, plain)
  }

  // What the builder sees of stage `k` of a pipeline.
  lemma EntryOfView(sid: IdFunction, options: Options, m: V2.Manifest, i: nat, k: nat)
    requires i < |m| && RefersBack(sid, m, i) && k < |m[i].stages|
    ensures var e, s := Trees.EntryOf(PipelineView(sid, options, m[i]), k), m[i].stages[k];
      && e.id == sid(s) && e.base == s.base
      && e.build == (if V2.Truthy(s.build) then s.build else None)
      && forall d :: d in e.deps <==> d in DepSet(s)
  {
    assert LinkedAt(sid, m[i].stages, k);
  }

  lemma SameStageSameRecipe(a: Stage, b: Stage)
    requires SameStage(a, b)
    ensures a.base == b.base && a.build == b.build && DepSet(a) == DepSet(b)
  {
  }

  // An entry belongs to a stage.
  ghost predicate Describes(sid: IdFunction, m: V2.Manifest, e: Trees.Entry, s: Stage) {
    && e.id == sid(s) && e.base == s.base
    && e.build == (if V2.Truthy(s.build) then s.build else None)
    && forall d :: d in e.deps <==> d in DepSet(s)
  }

  lemma EntryDescribes(sid: IdFunction, options: Options, plain: iset<Stage>, m: V2.Manifest, i: nat, e: Trees.Entry)
    returns (s: Stage)
    requires i < |m| && RefersBack(sid, m, i) && Inside(m[i].stages, plain)
    requires exists k :: 0 <= k < |m[i].stages| && e == Trees.EntryOf(PipelineView(sid, options, m[i]), k)
    ensures s in plain && Describes(sid, m, e, s)
  {
    var k :| 0 <= k < |m[i].stages| && e == Trees.EntryOf(PipelineView(sid, options, m[i]), k);
    EntryOfView(sid, options, m, i, k);
    s := m[i].stages[k];
  }

  lemma {:induction false} EntriesDescribe(sid: IdFunction, options: Options, plain: iset<Stage>, m: V2.Manifest,
                                           n: nat, e: Trees.Entry)
    returns (s: Stage)
    requires n <= |m| && Backward(sid, m) && AllInside(m, plain) && e in Trees.Entries(View(sid, options, m)[..n])
    ensures s in plain && Describes(sid, m, e, s)
  {
    var ps := View(sid, options, m)[..n];
    var p := ps[n - 1];
    assert ps[..n - 1] == View(sid, options, m)[..n - 1];
    if e in Trees.Entries(ps[..n - 1]) {
      s := EntriesDescribe(sid, options, plain, m, n - 1, e);
    } else {
      s := EntryDescribes(sid, options, plain, m, n - 1, e);
    }
  }

  lemma EqualIdsEqualRecipes(sid: IdFunction, options: Options, plain: iset<Stage>, m: V2.Manifest, a: Trees.Entry,
                             b: Trees.Entry)
    requires Faithful(sid, plain) && Backward(sid, m) && AllInside(m, plain)
    requires a in Trees.Entries(View(sid, options, m)) && b in Trees.Entries(View(sid, options, m)) && a.id == b.id
    ensures Trees.SameRecipe(a, b)
  {
    assert View(sid, options, m)[..|m|] == View(sid, options, m);
    var s := EntriesDescribe(sid, options, plain, m, |m|, a);
    var t := EntriesDescribe(sid, options, plain, m, |m|, b);
    SameStageSameRecipe(s, t);
  }

  // ------------------------------------------------------------ earlier ids only

  ghost predicate UsesEarlier(es: seq<Trees.Entry>) {
    forall i, id :: 0 <= i < |es| && Trees.Uses(es[i], id) ==> exists j :: 0 <= j < i && es[j].id == id
  }

  lemma MemberHasId(es: seq<Trees.Entry>, e: Trees.Entry)
    requires e in es
    ensures Trees.HasEntry(es, e.id)
  {
    var x :| 0 <= x < |es| && es[x] == e;
  }

  lemma LastHasEntry(ps: seq<M.Pipeline>, p: M.Pipeline)
    requires p in ps && p.stages != []
    ensures Trees.HasEntry(Trees.Entries(ps), p.Id().value)
  {
    Trees.EntriesComplete(ps, p, |p.stages| - 1);
    MemberHasId(Trees.Entries(ps), Trees.EntryOf(p, |p.stages| - 1));
  }

  // The last stage of an earlier pipeline has an entry.
  lemma BeforeHasEntry(sid: IdFunction, options: Options, m: V2.Manifest, n: nat, id: string)
    requires n <= |m| && IdBefore(sid, m, n, id)
    ensures Trees.HasEntry(Trees.Entries(View(sid, options, m)[..n]), id)
  {
    var j :| 0 <= j < n && V2.Id(sid, m[j]) == Some(id);
    var ps := View(sid, options, m)[..n];
    assert ps[j] == View(sid, options, m)[j];
    LastHasEntry(ps, ps[j]);
  }

  ghost function Own(p: M.Pipeline): (r: seq<Trees.Entry>)
    ensures |r| == |p.stages| && forall k :: 0 <= k < |r| ==> r[k] == Trees.EntryOf(p, k)
  {
    seq(|p.stages|, k requires 0 <= k < |p.stages| => Trees.EntryOf(p, k))
  }

  lemma EntriesGrow(ps: seq<M.Pipeline>)
    requires ps != []
    ensures Trees.Entries(ps) == Trees.Entries(ps[..|ps| - 1]) + Own(ps[|ps| - 1])
  {
  }

  // What entry `k` of `p` uses is in `es`, or the entry before.
  ghost predicate UsesOk(es: seq<Trees.Entry>, p: M.Pipeline, k: int)
    requires 0 <= k < |p.stages|
  {
    forall id :: Trees.Uses(Trees.EntryOf(p, k), id) ==>
      Trees.HasEntry(es, id) || (k > 0 && Trees.EntryOf(p, k - 1).id == id)
  }

  // Entries whose uses are earlier ones, in the same pipeline or before it.
  lemma EarlierAppends(es: seq<Trees.Entry>, p: M.Pipeline)
    requires UsesEarlier(es) && forall k :: 0 <= k < |p.stages| ==> UsesOk(es, p, k)
    ensures UsesEarlier(es + Own(p))
  {
    var all := es + Own(p);
    forall i, id | 0 <= i < |all| && Trees.Uses(all[i], id) ensures exists j :: 0 <= j < i && all[j].id == id {
      if i < |es| {
        var j :| 0 <= j < i && es[j].id == id;
        assert all[j].id == id;
      } else {
        var k := i - |es|;
        assert all[i] == Own(p)[k] && UsesOk(es, p, k);
        if Trees.HasEntry(es, id) {
          var j :| 0 <= j < |es| && es[j].id == id;
          assert all[j].id == id;
        } else {
          assert all[i - 1] == Own(p)[k - 1];
        }
      }
    }
  }

  lemma {:induction false} EntriesUseEarlier(sid: IdFunction, options: Options, m: V2.Manifest, n: nat)
    requires n <= |m| && Backward(sid, m)
    ensures UsesEarlier(Trees.Entries(View(sid, options, m)[..n]))
  {
    if n > 0 {
      var ps := View(sid, options, m)[..n];
      var p := ps[n - 1];
      assert ps[..n - 1] == View(sid, options, m)[..n - 1];
      EntriesUseEarlier(sid, options, m, n - 1);
      var es := Trees.Entries(ps[..n - 1]);
      forall k | 0 <= k < |p.stages| ensures UsesOk(es, p, k) {
        forall id | Trees.Uses(Trees.EntryOf(p, k), id)
          ensures Trees.HasEntry(es, id) || (k > 0 && Trees.EntryOf(p, k - 1).id == id)
        {
          UseIsEarlier(sid, options, m, n - 1, k, id);
        }
      }
      EarlierAppends(es, p);
      EntriesGrow(ps);
    }
  }

  lemma UseIsEarlier(sid: IdFunction, options: Options, m: V2.Manifest, i: nat, k: nat, id: string)
    requires i < |m| && RefersBack(sid, m, i) && k < |m[i].stages|
    requires Trees.Uses(Trees.EntryOf(PipelineView(sid, options, m[i]), k), id)
    ensures
      || Trees.HasEntry(Trees.Entries(View(sid, options, m)[..i]), id)
      || (k > 0 && Trees.EntryOf(PipelineView(sid, options, m[i]), k - 1).id == id)
  {
    var p := PipelineView(sid, options, m[i]);
    var e := Trees.EntryOf(p, k);
    EntryOfView(sid, options, m, i, k);
    if e.base != Some(id) {
      assert IdBefore(sid, m, i, id);
      BeforeHasEntry(sid, options, m, i, id);
    }
  }

  // ------------------------------------------------------------------ the theorem

  /** Content addressing makes sense: with an injective hash and targets that are no
      device ids, in a manifest loaded from a description whose build pipelines are
      given by name or by the id of an earlier one, and which takes no pipeline without
      stages as an input, every id stands for one tree. */
  lemma LoadedDenotes(h: string -> string, run: Trees.Runner, host: string, sources: set<string>,
                      descs: seq<V2.PipelineDesc>, raw: V2.Manifest, m: V2.Manifest, options: Options,
                      others: Trees.Denotation)
    requires Injective(h) && V2.Loaded(IdOf(h), host, sources, descs, raw, m)
    requires NoEmptyInputs(m) && BuildsBack(IdOf(h), descs, m) && AllInside(m, Plain(h))
    ensures var ps := View(IdOf(h), options, m);
      forall p :: p in ps ==> Trees.Respects(run, Trees.Meaning(run, ps, others), p)
  {
    FaithfulIds(h);
    LoadedBackward(IdOf(h), host, sources, descs, raw, m);
    Denotes(IdOf(h), Plain(h), run, m, options, others);
  }

  lemma Denotes(sid: IdFunction, plain: iset<Stage>, run: Trees.Runner, m: V2.Manifest, options: Options,
                others: Trees.Denotation)
    requires Faithful(sid, plain) && Backward(sid, m) && AllInside(m, plain)
    ensures var ps := View(sid, options, m);
      forall p :: p in ps ==> Trees.Respects(run, Trees.Meaning(run, ps, others), p)
  {
    var ps := View(sid, options, m);
    var es := Trees.Entries(ps);
    assert ps[..|m|] == ps;
    EntriesUseEarlier(sid, options, m, |m|);
    forall i, j | 0 <= i < |es| && 0 <= j < |es| && es[i].id == es[j].id ensures Trees.SameRecipe(es[i], es[j]) {
      EqualIdsEqualRecipes(sid, options, plain, m, es[i], es[j]);
    }
    Trees.DenotationExists(run, M.Manifest(ps), others);
  }

  // --------------------------------------------------------------- ready to plan

  ghost function Index(ps: seq<M.Pipeline>, p: M.Pipeline): nat {
    if ps == [] || ps[0] == p then 0 else 1 + Index(ps[1..], p)
  }

  lemma {:induction false} IndexAt(ps: seq<M.Pipeline>, i: nat)
    requires i < |ps| && forall a, b :: 0 <= a < b < |ps| ==> ps[a].name != ps[b].name
    ensures Index(ps, ps[i]) == i
  {
    if i > 0 {
      assert ps[0].name != ps[i].name;
      IndexAt(ps[1..], i - 1);
    }
  }

  lemma ViewId(sid: IdFunction, options: Options, m: V2.Manifest, i: nat)
    requires i < |m|
    ensures View(sid, options, m)[i].Id() == V2.Id(sid, m[i]) && View(sid, options, m)[i].name == m[i].name
  {
  }

  // No pipeline is named like the id of one.
  ghost predicate NamesAreNoIds(sid: IdFunction, m: V2.Manifest) {
    forall i, j :: 0 <= i < |m| && 0 <= j < |m| ==> V2.Id(sid, m[i]) != Some(m[j].name)
  }

  lemma {:induction false} FindIsFirst(ps: seq<M.Pipeline>, f: M.Pipeline -> bool, j: nat)
    requires j < |ps| && f(ps[j])
    ensures M.Find(ps, f).Some? && M.Find(ps, f).value in ps[..j + 1]
  {
    if !f(ps[0]) {
      FindIsFirst(ps[1..], f, j - 1);
      assert ps[1..][..j] == ps[..j + 1][1..];
    } else {
      assert ps[..j + 1][0] == ps[0];
    }
  }

  lemma GetsFirst(ps: seq<M.Pipeline>, id: string, j: nat)
    requires j < |ps| && ps[j].Id() == Some(id) && forall p :: p in ps ==> p.name != id
    ensures var r := M.Manifest(ps).Get(id); r.Some? && r.value.Id() == Some(id) && r.value in ps[..j + 1]
  {
    FindIsFirst(ps, (p: M.Pipeline) => p.Id() == Some(id), j);
  }

  lemma NotAName(sid: IdFunction, options: Options, m: V2.Manifest, j: nat)
    requires NamesAreNoIds(sid, m) && j < |m|
    ensures forall p :: p in View(sid, options, m) ==> V2.Id(sid, m[j]) != Some(p.name)
  {
    forall p | p in View(sid, options, m) ensures V2.Id(sid, m[j]) != Some(p.name) {
      var k: nat :| k < |m| && View(sid, options, m)[k] == p;
      ViewId(sid, options, m, k);
    }
  }

  // The id of an earlier pipeline leads to one.
  lemma GetsEarlier(sid: IdFunction, options: Options, m: V2.Manifest, i: nat, id: string)
    requires NamesAreNoIds(sid, m) && i <= |m| && IdBefore(sid, m, i, id)
    ensures var r := M.Manifest(View(sid, options, m)).Get(id);
      r.Some? && r.value.Id() == Some(id) && r.value in View(sid, options, m)[..i]
  {
    var ps := View(sid, options, m);
    var j :| 0 <= j < i && j < |m| && V2.Id(sid, m[j]) == Some(id);
    ViewId(sid, options, m, j);
    NotAName(sid, options, m, j);
    GetsFirst(ps, id, j);
    assert ps[..j + 1] <= ps[..i];
  }

  lemma RefsResolve(sid: IdFunction, options: Options, m: V2.Manifest)
    requires NamesAreNoIds(sid, m) && Backward(sid, m)
    ensures BuildPlan.RefsAreIds(M.Manifest(View(sid, options, m)))
  {
    var ps := View(sid, options, m);
    forall p | p in ps
      ensures p.HasBuild() ==> BuildPlan.Resolves(M.Manifest(ps), p.build.value)
      ensures forall k, d :: 0 <= k < |p.stages| && d in p.stages[k].deps ==> BuildPlan.Resolves(M.Manifest(ps), d)
    {
      var i: nat :| i < |ps| && ps[i] == p;
      assert RefersBack(sid, m, i);
      if p.HasBuild() {
        GetsEarlier(sid, options, m, i, p.build.value);
      }
      forall k, d | 0 <= k < |p.stages| && d in p.stages[k].deps ensures BuildPlan.Resolves(M.Manifest(ps), d) {
        assert d in DepSet(m[i].stages[k]);
        GetsEarlier(sid, options, m, i, d);
      }
    }
  }

  lemma NeedsEarlier(sid: IdFunction, options: Options, m: V2.Manifest, i: nat, q: M.Pipeline)
    requires NamesAreNoIds(sid, m) && i < |m| && RefersBack(sid, m, i)
    requires Some(q) in Depsolve.Needs(M.Manifest(View(sid, options, m)), {}, View(sid, options, m)[i])
    ensures q in View(sid, options, m)[..i]
  {
    var ps := View(sid, options, m);
    var p := ps[i];
    if p.HasBuild() && M.Manifest(ps).Get(p.build.value) == Some(q) {
      GetsEarlier(sid, options, m, i, p.build.value);
    } else {
      Depsolve.StageNeedsMeaning(M.Manifest(ps), {}, p.stages, Some(q));
      var k :| Depsolve.TakenBy(M.Manifest(ps), {}, p.stages, Some(q), k);
      var d :| d in p.stages[k].deps && M.Manifest(ps).Get(d) == Some(q);
      assert d in DepSet(m[i].stages[k]);
      GetsEarlier(sid, options, m, i, d);
    }
  }

  lemma LoadedNames(sid: IdFunction, host: string, sources: set<string>, descs: seq<V2.PipelineDesc>,
                    raw: V2.Manifest, m: V2.Manifest, options: Options)
    requires V2.Loaded(sid, host, sources, descs, raw, m)
    ensures M.Manifest(View(sid, options, m)).Valid()
  {
    forall i, j | 0 <= i < j < |m| ensures m[i].name != m[j].name {
      assert V2.RawAt(sid, host, sources, descs, raw, j);
      assert raw[..j][i] == raw[i];
    }
  }

  /** A loaded manifest meets what the planner and the builder ask for: its references
      are ids and lead to earlier pipelines, so nothing is circular, whatever is
      stored and asked for. */
  lemma LoadedIsBuildable(sid: IdFunction, host: string, sources: set<string>, descs: seq<V2.PipelineDesc>,
                          raw: V2.Manifest, m: V2.Manifest, options: Options)
    returns (rank: M.Pipeline -> nat)
    requires V2.Loaded(sid, host, sources, descs, raw, m) && NamesAreNoIds(sid, m)
    requires NoEmptyInputs(m) && BuildsBack(sid, descs, m)
    ensures M.Manifest(View(sid, options, m)).Valid() && BuildPlan.RefsAreIds(M.Manifest(View(sid, options, m)))
    ensures forall stored, targets :: var v := M.Manifest(View(sid, options, m));
      Depsolve.Acyclic(v, stored, Depsolve.ReachableSet(v, stored, targets), rank)
  {
    LoadedNames(sid, host, sources, descs, raw, m, options);
    LoadedBackward(sid, host, sources, descs, raw, m);
    RefsResolve(sid, options, m);
    var ps := View(sid, options, m);
    rank := (p: M.Pipeline) => Index(ps, p);
    forall i | 0 <= i < |ps| ensures rank(ps[i]) == i {
      IndexAt(ps, i);
    }
    forall i, q | 0 <= i < |ps| && Some(q) in Depsolve.Needs(M.Manifest(ps), {}, ps[i]) ensures q in ps[..i] {
      NeedsEarlier(sid, options, m, i, q);
    }
    forall stored, targets
      ensures Depsolve.Acyclic(M.Manifest(ps), stored, Depsolve.ReachableSet(M.Manifest(ps), stored, targets), rank)
    {
      Depsolve.EarlierIsAcyclic(M.Manifest(ps), stored, targets, rank);
    }
  }
}
