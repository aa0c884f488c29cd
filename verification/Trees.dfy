/**
  What a content id stands for.  `run` is what a stage does: a tree made from the
  tree below, the build tree and the input trees.  A denotation `D` gives every id
  the tree its recipe describes.
 */
module Trees {
  import opened Wrappers
  import opened Manifests

  datatype Tree = Tree(files: map<string, string>)

  const EMPTY := Tree(map[])

  // Stage id, tree below, build tree (none: the host), input trees by pipeline id.
  type Runner = (string, Tree, Option<Tree>, map<string, Tree>) -> Tree

  type Denotation = string -> Tree

  ghost function InputsOf(D: Denotation, deps: seq<string>): map<string, Tree> {
    map d | d in deps :: D(d)
  }

  ghost function BuildOf(D: Denotation, p: Pipeline): Option<Tree> {
    if p.HasBuild() then Some(D(p.build.value)) else None
  }

  // The tree before stage `k`, according to the ids.
  ghost function TreeBefore(D: Denotation, p: Pipeline, k: int): Tree
    requires 0 <= k <= |p.stages|
  {
    if k == 0 then EMPTY else D(p.stages[k - 1].id)
  }

  ghost function RunStage(run: Runner, D: Denotation, p: Pipeline, k: int, tree: Tree): Tree
    requires 0 <= k < |p.stages|
  {
    run(p.stages[k].id, tree, BuildOf(D, p), InputsOf(D, p.stages[k].deps))
  }

  // `D` gives the stages of `p` the trees they make.
  ghost predicate Respects(run: Runner, D: Denotation, p: Pipeline) {
    forall k :: 0 <= k < |p.stages| ==> RespectsAt(run, D, p, k)
  }

  ghost predicate RespectsAt(run: Runner, D: Denotation, p: Pipeline, k: int)
    requires 0 <= k < |p.stages|
  {
    D(p.stages[k].id) == RunStage(run, D, p, k, TreeBefore(D, p, k))
  }

  // A build from scratch: all stages in order, from the empty tree.
  ghost function FromScratch(run: Runner, D: Denotation, p: Pipeline, k: int): Tree
    requires 0 <= k <= |p.stages|
  {
    if k == 0 then EMPTY else RunStage(run, D, p, k - 1, FromScratch(run, D, p, k - 1))
  }

  /** The tree an id stands for is the tree of a build from scratch. */
  lemma {:induction false} ScratchIsDenotation(run: Runner, D: Denotation, p: Pipeline, k: int)
    requires Respects(run, D, p) && 0 <= k <= |p.stages|
    ensures FromScratch(run, D, p, k) == TreeBefore(D, p, k)
  {
    if k > 0 {
      ScratchIsDenotation(run, D, p, k - 1);
      assert RespectsAt(run, D, p, k - 1);
    }
  }

  // ------------------------------------------------------ a denotation exists

  // What the id of a stage stands for.
  datatype Entry = Entry(id: string, base: Option<string>, build: Option<string>, deps: seq<string>)

  ghost function EntryOf(p: Pipeline, k: int): Entry
    requires 0 <= k < |p.stages|
  {
    var base := if k == 0 then None else Some(p.stages[k - 1].id);
    Entry(p.stages[k].id, base, if p.HasBuild() then p.build else None, p.stages[k].deps)
  }

  ghost function Entries(ps: seq<Pipeline>): seq<Entry> {
    if ps == [] then []
    else
      var n := |ps| - 1;
      Entries(ps[..n]) + seq(|ps[n].stages|, k requires 0 <= k < |ps[n].stages| => EntryOf(ps[n], k))
  }

  ghost predicate Uses(e: Entry, id: string) {
    e.base == Some(id) || e.build == Some(id) || id in e.deps
  }

  ghost predicate SameRecipe(a: Entry, b: Entry) {
    a.base == b.base && a.build == b.build && forall d :: d in a.deps <==> d in b.deps
  }

  // Entries use earlier ids only, and equal ids mean equal recipes.
  ghost predicate Grounded(es: seq<Entry>) {
    && (forall i, id :: 0 <= i < |es| && Uses(es[i], id) ==> exists j :: 0 <= j < i && es[j].id == id)
    && (forall i, j :: 0 <= i < |es| && 0 <= j < |es| && es[i].id == es[j].id ==> SameRecipe(es[i], es[j]))
  }

  ghost function Made(run: Runner, D: Denotation, e: Entry): Tree {
    run(e.id, if e.base.Some? then D(e.base.value) else EMPTY,
        if e.build.Some? then Some(D(e.build.value)) else None, InputsOf(D, e.deps))
  }

  lemma MadeDependsOnUses(run: Runner, D: Denotation, D': Denotation, e: Entry)
    requires forall id :: Uses(e, id) ==> D(id) == D'(id)
    ensures Made(run, D, e) == Made(run, D', e)
  {
    assert e.base.Some? ==> Uses(e, e.base.value);
    assert e.build.Some? ==> Uses(e, e.build.value);
    assert forall d :: d in e.deps ==> Uses(e, d);
    assert InputsOf(D, e.deps) == InputsOf(D', e.deps);
  }

  ghost function With(D: Denotation, id: string, t: Tree): Denotation {
    x => if x == id then t else D(x)
  }

  // The tree of every entry, made from those of the entries before; other ids keep
  // the trees `others` gives them.
  ghost function Denote(run: Runner, es: seq<Entry>, others: Denotation): Denotation {
    if es == [] then others
    else
      var n := |es| - 1;
      var D := Denote(run, es[..n], others);
      With(D, es[n].id, Made(run, D, es[n]))
  }

  ghost predicate HasEntry(es: seq<Entry>, id: string) {
    exists i :: 0 <= i < |es| && es[i].id == id
  }

  lemma {:induction false} EntriesDenote(run: Runner, es: seq<Entry>, others: Denotation)
    requires Grounded(es)
    ensures var D := Denote(run, es, others); forall i :: 0 <= i < |es| ==> D(es[i].id) == Made(run, D, es[i])
  {
    if es != [] {
      var n := |es| - 1;
      var e := es[n];
      var D0, D := Denote(run, es[..n], others), Denote(run, es, others);
      assert Grounded(es[..n]);
      EntriesDenote(run, es[..n], others);
      if j :| 0 <= j < n && es[j].id == e.id {
        assert es[..n][j] == es[j] && SameRecipe(es[j], e);
        assert InputsOf(D0, es[j].deps) == InputsOf(D0, e.deps);
        assert forall id :: D(id) == D0(id);
        forall i | 0 <= i <= n ensures D(es[i].id) == Made(run, D, es[i]) {
          MadeDependsOnUses(run, D0, D, es[i]);
          assert i < n ==> es[..n][i] == es[i];
        }
      } else {
        forall i | 0 <= i <= n ensures D(es[i].id) == Made(run, D, es[i]) {
          forall id | Uses(es[i], id) ensures D0(id) == D(id) {
            var j :| 0 <= j < i && es[j].id == id;
          }
          MadeDependsOnUses(run, D0, D, es[i]);
          assert i < n ==> es[..n][i] == es[i];
        }
      }
    }
  }

  lemma {:induction false} OthersStay(run: Runner, es: seq<Entry>, others: Denotation, id: string)
    requires !HasEntry(es, id)
    ensures Denote(run, es, others)(id) == others(id)
  {
    if es != [] {
      assert forall i :: 0 <= i < |es| - 1 ==> es[..|es| - 1][i] == es[i];
      OthersStay(run, es[..|es| - 1], others, id);
    }
  }

  lemma {:induction false} EntriesComplete(ps: seq<Pipeline>, p: Pipeline, k: int)
    requires p in ps && 0 <= k < |p.stages|
    ensures EntryOf(p, k) in Entries(ps)
  {
    var n := |ps| - 1;
    if p == ps[n] {
      var last := seq(|p.stages|, i requires 0 <= i < |p.stages| => EntryOf(p, i));
      assert last[k] == EntryOf(p, k);
    } else {
      assert p in ps[..n];
      EntriesComplete(ps[..n], p, k);
    }
  }

  // What ids stand for when these pipelines are built; `others` is what all other ids do.
  ghost function Meaning(run: Runner, ps: seq<Pipeline>, others: Denotation): Denotation {
    Denote(run, Entries(ps), others)
  }

  /** Content addressing makes sense: when references lead to earlier pipelines and
      equal ids mean equal recipes, every id has the tree of its recipe, and no other id
      is concerned. */
  lemma DenotationExists(run: Runner, m: Manifest, others: Denotation)
    requires Grounded(Entries(m.pipelines))
    ensures forall p :: p in m.pipelines ==> Respects(run, Meaning(run, m.pipelines, others), p)
    ensures forall id :: !HasEntry(Entries(m.pipelines), id) ==> Meaning(run, m.pipelines, others)(id) == others(id)
  {
    var es, D := Entries(m.pipelines), Meaning(run, m.pipelines, others);
    EntriesDenote(run, es, others);
    forall p, k | p in m.pipelines && 0 <= k < |p.stages|
      ensures RespectsAt(run, D, p, k)
    {
      EntriesComplete(m.pipelines, p, k);
      var i :| 0 <= i < |es| && es[i] == EntryOf(p, k);
    }
    forall id | !HasEntry(es, id) ensures D(id) == others(id) {
      OthersStay(run, es, others, id);
    }
  }
}
