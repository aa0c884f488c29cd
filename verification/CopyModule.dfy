/**
  `InitrdBuilder.copy_module` (osbuild/qemu.py:121-144): kernel modules are copied
  with a running number, a module's dependencies before the module.
 */
module CopyModule {
  // The modules that are found, with their dependencies; a dependency need not be
  // found.
  type Graph = map<string, seq<string>>

  ghost predicate Closed(graph: Graph, names: set<string>) {
    forall m, d :: m in graph && m in names && d in graph[m] ==> d in names
  }

  ghost predicate Acyclic(graph: Graph, rank: string -> nat) {
    forall m, d :: m in graph && d in graph[m] ==> rank(d) < rank(m)
  }

  // Every name there is, and one more.
  ghost function Universe(graph: Graph, name: string): (u: set<string>)
    ensures name in u && Closed(graph, u)
  {
    {name} + graph.Keys + (set m, d | m in graph && d in graph[m] :: d)
  }

  ghost predicate Distinct(files: seq<string>) {
    forall i, j :: 0 <= i < j < |files| ==> files[i] != files[j]
  }

  // What `name` leads to: the smallest closed set with it.
  ghost function Least(graph: Graph, name: string): (u: set<string>)
    ensures name in u && Closed(graph, u)
  {
    var all := Universe(graph, name);
    var r := set m | m in all && forall s: set<string> :: Closed(graph, s) && name in s ==> m in s;
    assert forall m, d :: m in graph && m in r && d in graph[m] ==> d in r;
    r
  }

  lemma LeastInside(graph: Graph, name: string, s: set<string>)
    requires Closed(graph, s) && name in s
    ensures Least(graph, name) <= s
  {
  }

  // Which names lead to which.
  type Ways = iset<(string, string)>

  ghost function AllWays(graph: Graph): Ways { iset w: (string, string) | w.1 in Least(graph, w.0) }

  // Ways start anywhere and go on along dependencies.
  ghost predicate GoOn(graph: Graph, ways: Ways) {
    && (forall a :: (a, a) in ways)
    && forall a, m, d :: (a, m) in ways && m in graph && d in graph[m] ==> (a, d) in ways
  }

  // A found dependency of a module has a smaller number, unless it leads back to the
  // module.
  ghost predicate DepsFirst(graph: Graph, ways: Ways, files: seq<string>) {
    forall i, d :: 0 <= i < |files| && files[i] in graph && d in graph[files[i]] && d in graph ==>
      d in files[..i] || (d, files[i]) in ways
  }

  // Nothing leads back to where it comes from.
  lemma AcyclicNoWayBack(graph: Graph, rank: string -> nat, m: string, d: string)
    requires Acyclic(graph, rank) && m in graph && d in graph[m]
    ensures m !in Least(graph, d)
  {
    var below := set x | x in Universe(graph, d) && rank(x) <= rank(d);
    LeastInside(graph, d, below);
  }

  // In an acyclic graph every found dependency has a smaller number.
  lemma AcyclicDepsFirst(graph: Graph, rank: string -> nat, files: seq<string>, i: nat, d: string)
    requires Acyclic(graph, rank) && DepsFirst(graph, AllWays(graph), files)
    requires i < |files| && files[i] in graph && d in graph[files[i]] && d in graph
    ensures d in files[..i]
  {
    AcyclicNoWayBack(graph, rank, files[i], d);
  }

  class InitrdBuilder {
    const graph: Graph
    var copied: set<string>
    var counter: nat
    // The module behind each number, from 1 on.
    var files: seq<string>

    constructor (graph: Graph)
      ensures this.graph == graph && copied == {} && counter == 0 && files == [] && Valid({})
    {
      this.graph := graph;
      copied, counter, files := {}, 0, [];
    }

    // `active` are the modules being copied, whose number is still to come.
    ghost predicate Valid(active: set<string>)
      reads this
    {
      && counter == |files| && Distinct(files) && active <= copied
      && (forall m :: m in files ==> m in graph && m in copied)
      && (forall m :: m in files ==> m !in active)
      && (forall m :: m in copied && m in graph ==> m in files || m in active)
      && (forall m, d :: m in files && d in graph[m] ==> d in copied)
    }

    /** Copying ends for every graph, cyclic or not.  It numbers found modules one
        after the other, each at most once; it goes exactly as far as the
        dependencies do; and dependencies come first, but for those on a cycle. */
    method Copy(name: string, ghost active: set<string>, ghost reach: set<string>, ghost ways: Ways)
      requires Valid(active) && name in reach && Closed(graph, reach)
      requires GoOn(graph, ways) && DepsFirst(graph, ways, files) && forall a :: a in active ==> (a, name) in ways
      modifies this
      ensures Valid(active) && DepsFirst(graph, ways, files)
      ensures old(copied) <= copied <= old(copied) + reach && name in copied
      ensures old(files) <= files && old(counter) <= counter
      decreases |reach - copied|, 0
    {
      if name in copied {
        return;
      }
      copied := copied + {name};
      Smaller(reach, old(copied), copied, name);
      if name !in graph {
        return;
      }
      var dependencies := graph[name];
      CopyDependencies(name, dependencies, active + {name}, reach, ways);
      counter := counter + 1;
      ghost var before := files;
      files := files + [name];
      assert forall m :: m in files <==> m in before || m == name;
      NumberLast(graph, ways, before, name, active + {name}, copied);
    }

    // The `for` loop; `name` is being copied.
    method CopyDependencies(name: string, dependencies: seq<string>, ghost inside: set<string>,
                            ghost reach: set<string>, ghost ways: Ways)
      requires Valid(inside) && name in inside && name in reach && Closed(graph, reach) && name in graph
      requires dependencies == graph[name]
      requires GoOn(graph, ways) && DepsFirst(graph, ways, files) && forall a :: a in inside ==> (a, name) in ways
      modifies this
      ensures Valid(inside) && DepsFirst(graph, ways, files)
      ensures old(copied) <= copied <= old(copied) + reach
      ensures old(files) <= files && old(counter) <= counter
      ensures forall d :: d in dependencies ==> d in copied
      decreases |reach - copied|, 1
    {
      var i := 0;
      while i < |dependencies|
        invariant 0 <= i <= |dependencies| && Valid(inside) && DepsFirst(graph, ways, files)
        invariant old(copied) <= copied <= old(copied) + reach
        invariant old(files) <= files && old(counter) <= counter
        invariant forall k :: 0 <= k < i ==> dependencies[k] in copied
      {
        SubsetSize(reach - copied, reach - old(copied));
        Copy(dependencies[i], inside, reach, ways);
        i := i + 1;
      }
    }
  }

  lemma Smaller(reach: set<string>, was: set<string>, now: set<string>, name: string)
    requires name in reach && name !in was && was + {name} <= now
    ensures |reach - now| < |reach - was|
  {
    assert reach - now <= (reach - was) - {name};
    SubsetSize(reach - now, (reach - was) - {name});
  }

  lemma {:induction false} SubsetSize(a: set<string>, b: set<string>)
    requires a <= b
    ensures |a| <= |b|
  {
    if a != {} {
      var x :| x in a;
      SubsetSize(a - {x}, b - {x});
    }
  }

  // A module numbered after its dependencies were copied: what has no number yet is
  // being copied, and so leads to the module.
  lemma NumberLast(graph: Graph, ways: Ways, files: seq<string>, name: string, inside: set<string>, copied: set<string>)
    requires DepsFirst(graph, ways, files) && name in graph
    requires forall m :: m in copied && m in graph ==> m in files || m in inside
    requires forall a :: a in inside ==> (a, name) in ways
    requires forall d :: d in graph[name] ==> d in copied
    ensures DepsFirst(graph, ways, files + [name])
  {
    var longer := files + [name];
    forall i, d | 0 <= i < |longer| && longer[i] in graph && d in graph[longer[i]] && d in graph
      ensures d in longer[..i] || (d, longer[i]) in ways
    {
      if i < |files| {
        assert longer[..i] == files[..i];
      } else {
        assert longer[..i] == files;
      }
    }
  }

  lemma WaysGoOn(graph: Graph)
    ensures GoOn(graph, AllWays(graph))
  {
    forall a, m, d | (a, m) in AllWays(graph) && m in graph && d in graph[m] ensures d in Least(graph, a) {
      assert Closed(graph, Least(graph, a));
    }
  }

  /** Any sequence of calls: consecutive numbers, no module twice, everything the
      requested modules lead to and nothing else, dependencies first. */
  method CopyAll(graph: Graph, names: seq<string>) returns (files: seq<string>, ghost copied: set<string>)
    ensures Distinct(files) && forall m :: m in files <==> m in copied && m in graph
    ensures Closed(graph, copied) && forall i :: 0 <= i < |names| ==> names[i] in copied
    ensures forall s: set<string> :: Closed(graph, s) && (forall i :: 0 <= i < |names| ==> names[i] in s) ==>
      copied <= s
    ensures DepsFirst(graph, AllWays(graph), files)
    ensures forall rank, i, d :: Acyclic(graph, rank) && 0 <= i < |files| && d in graph[files[i]] && d in graph ==>
      d in files[..i]
  {
    var b := new InitrdBuilder(graph);
    ghost var ways := AllWays(graph);
    WaysGoOn(graph);
    ghost var least: iset<set<string>> :=
      iset s: set<string> | Closed(graph, s) && forall i :: 0 <= i < |names| ==> names[i] in s;
    var i := 0;
    while i < |names|
      invariant 0 <= i <= |names| && b.graph == graph && b.Valid({}) && fresh(b) && DepsFirst(graph, ways, b.files)
      invariant forall k :: 0 <= k < i ==> names[k] in b.copied
      invariant forall s :: s in least ==> b.copied <= s
    {
      ghost var reach := Least(graph, names[i]);
      forall s | s in least ensures reach <= s {
        LeastInside(graph, names[i], s);
      }
      b.Copy(names[i], {}, reach, ways);
      i := i + 1;
    }
    files, copied := b.files, b.copied;
    forall rank, i, d | Acyclic(graph, rank) && 0 <= i < |files| && d in graph[files[i]] && d in graph
      ensures d in files[..i]
    {
      AcyclicDepsFirst(graph, rank, files, i, d);
    }
  }
}
