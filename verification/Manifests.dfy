/**
  Pipelines, stages and the lookup of references (osbuild/pipeline.py:77-137,
  365-396, 562-584, 720-736), as far as planning and building need them.
 */
module Manifests {
  import opened Wrappers

  // A stage as the planner sees it: its content id and the pipelines it takes as
  // inputs, in the order of `Stage.dependencies`.
  datatype Stage = Stage(id: string, deps: seq<string>, checkpoint: bool)

  datatype Pipeline = Pipeline(name: string, build: Option<string>, stages: seq<Stage>) {
    function Id(): Option<string> {
      if stages == [] then None else Some(stages[|stages| - 1].id)
    }

    // An absent and an empty build reference both mean: build on the host.
    predicate HasBuild() {
      build.Some? && build.value != ""
    }
  }

  // The ordered dictionary of pipelines; its keys are the names.
  datatype Manifest = Manifest(pipelines: seq<Pipeline>) {
    ghost predicate Valid() {
      forall i, j :: 0 <= i < j < |pipelines| ==> pipelines[i].name != pipelines[j].name
    }

    // `Manifest.get`: names take precedence over ids.
    function Get(ref: string): (r: Option<Pipeline>)
      ensures r.Some? ==> r.value in pipelines && (r.value.name == ref || r.value.Id() == Some(ref))
    {
      match Find(pipelines, (p: Pipeline) => p.name == ref)
      case Some(p) => Some(p)
      case None => Find(pipelines, (p: Pipeline) => p.Id() == Some(ref))
    }

    function Lookup(refs: seq<string>): (r: seq<Option<Pipeline>>)
      ensures |r| == |refs| && forall i :: 0 <= i < |r| ==> r[i] == Get(refs[i])
    {
      seq(|refs|, i requires 0 <= i < |refs| => Get(refs[i]))
    }
  }

  // The first pipeline with property `f`.
  function Find(ps: seq<Pipeline>, f: Pipeline -> bool): (r: Option<Pipeline>)
    ensures r.Some? ==> r.value in ps && f(r.value)
    ensures r.None? ==> forall p :: p in ps ==> !f(p)
  {
    if ps == [] then None else if f(ps[0]) then Some(ps[0]) else Find(ps[1..], f)
  }

  // What `ObjectStore.contains` answers when the visible ids are `stored`.
  predicate Contains(stored: set<string>, id: Option<string>) {
    id.Some? && id.value != "" && id.value in stored
  }

  lemma GetByName(m: Manifest, p: Pipeline)
    requires m.Valid() && p in m.pipelines
    ensures m.Get(p.name) == Some(p)
  {
    assert Find(m.pipelines, (q: Pipeline) => q.name == p.name).Some?;
  }
}
