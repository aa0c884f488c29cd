/**
  Loading a manifest description (osbuild/formats/v2.py:178-184, 228-401).

  An absent dictionary of a description is an empty one, as loading treats it.
  Where Python raises an exception, loading returns `None`.
 */
module ManifestV2 {
  import opened Wrappers
  import opened JsonText
  import opened Dicts
  import opened ContentId
  import Sort = SortDevices

  const PIPELINE := "org.osbuild.pipeline"
  const SOURCE := "org.osbuild.source"

  // References are a dictionary, or a list of ids with or without options.
  datatype Ref = Plain(id: string) | WithOptions(id: string, options: Json)
  datatype References = Named(refs: Dict) | Listed(items: seq<Ref>)

  datatype InputDesc = InputDesc(info: string, origin: string, references: References, options: Dict) {
    function Refs(): Dict { match references case Named(refs) => refs case Listed(items) => FromList(items) }
  }

  function OptionsOf(r: Ref): Json { if r.Plain? then Obj([]) else r.options }

  // A repeated id keeps its last options.
  function FromList(items: seq<Ref>): Dict {
    if items == [] then map[]
    else FromList(items[..|items| - 1])[items[|items| - 1].id := OptionsOf(items[|items| - 1])]
  }

  lemma {:induction false} ListedRefs(items: seq<Ref>, i: nat)
    requires i < |items| && forall j :: i < j < |items| ==> items[j].id != items[i].id
    ensures items[i].id in FromList(items) && FromList(items)[items[i].id] == OptionsOf(items[i])
  {
    var n := |items| - 1;
    if i < n {
      assert items[n].id != items[i].id;
      ListedRefs(items[..n], i);
    }
  }

  datatype MountDesc = MountDesc(
    name: string, info: string, source: Option<string>, partition: Option<int>, target: Option<string>, options: Dict)

  datatype StageDesc = StageDesc(
    info: string, options: Dict, devices: seq<Sort.Item>, inputs: map<string, InputDesc>, mounts: seq<MountDesc>)

  datatype PipelineDesc = PipelineDesc(
    name: string, build: Option<string>, runner: Option<string>, epoch: Option<int>, stages: seq<StageDesc>)

  // A loaded pipeline; runners are known by name.
  datatype PipelineData = PipelineData(
    name: string, build: Option<string>, runner: string, epoch: Option<int>, stages: seq<Stage>)

  type Manifest = seq<PipelineData>

  function Id(sid: IdFunction, p: PipelineData): Option<string> { LastId(sid, p.stages) }

  predicate Truthy(s: Option<string>) { s.Some? && s.value != "" }

  // ------------------------------------------------------------------ references

  predicate ByName(r: string) { |r| >= 5 && r[..5] == "name:" }

  // The position of the pipeline with this name; the length if there is none.
  function IndexOf(m: Manifest, name: string): (i: nat)
    ensures i <= |m| && (i < |m| ==> m[i].name == name)
    ensures forall j :: 0 <= j < i ==> m[j].name != name
  {
    if m == [] then 0 else if m[0].name == name then 0 else 1 + IndexOf(m[1..], name)
  }

  predicate Known(m: Manifest, r: string) { ByName(r) && IndexOf(m, r[5..]) < |m| }

  // `resolve_ref`: the id of the pipeline called so.
  function Resolve(sid: IdFunction, m: Manifest, r: string): Option<string> {
    if Known(m, r) then Id(sid, m[IndexOf(m, r[5..])]) else None
  }

  // An id as dictionary key; JSON writes the key `None` as "null".
  function Key(id: Option<string>): string { if id.Some? then id.value else "null" }

  // `out` holds the items of `refs` with a name, under their ids.
  ghost predicate Rekeyed(sid: IdFunction, m: Manifest, refs: Dict, out: Dict) {
    && (forall r :: r in refs && ByName(r) ==> Key(Resolve(sid, m, r)) in out)
    && (forall k :: k in out ==> CameFrom(sid, m, refs, k, out[k]))
  }

  ghost predicate CameFrom(sid: IdFunction, m: Manifest, refs: Dict, k: string, v: Json) {
    exists r :: r in refs && ByName(r) && Key(Resolve(sid, m, r)) == k && refs[r] == v
  }

  // ---------------------------------------------------------------------- inputs

  ghost predicate InputLoadable(m: Manifest, sources: set<string>, d: InputDesc) {
    && (d.origin == PIPELINE ==> forall r :: r in d.Refs() && ByName(r) ==> Known(m, r))
    && (d.origin == SOURCE ==> d.Refs().Keys <= sources)
  }

  ghost predicate InputLoaded(sid: IdFunction, m: Manifest, d: InputDesc, i: Input) {
    && i.info == d.info && i.origin == d.origin && i.options == d.options
    && (if d.origin == PIPELINE then Rekeyed(sid, m, d.Refs(), i.refs) else i.refs == d.Refs())
  }

  // The references as a dictionary.
  method LoadRefs(references: References) returns (refs: Dict)
    ensures refs == match references case Named(d) => d case Listed(items) => FromList(items)
  {
    if references.Named? {
      return references.refs;
    }
    refs := map[];
    var i := 0;
    while i < |references.items|
      invariant 0 <= i <= |references.items| && refs == FromList(references.items[..i])
    {
      var r := references.items[i];
      assert references.items[..i + 1][..i] == references.items[..i];
      refs := refs[r.id := OptionsOf(r)];
      i := i + 1;
    }
    assert references.items[..i] == references.items;
  }

  method LoadInput(sid: IdFunction, m: Manifest, sources: set<string>, name: string, d: InputDesc)
    returns (r: Option<Input>)
    ensures r.Some? <==> InputLoadable(m, sources, d)
    ensures r.Some? ==> InputLoaded(sid, m, d, r.value) && r.value.name == name
  {
    var refs := LoadRefs(d.references);
    if d.origin == PIPELINE {
      var todo := refs.Keys;
      var resolved: Dict := map[];
      while todo != {}
        invariant todo <= d.Refs().Keys
        invariant forall k :: k in d.Refs() && k !in todo && ByName(k) ==>
          Known(m, k) && Key(Resolve(sid, m, k)) in resolved
        invariant forall k :: k in resolved ==> CameFrom(sid, m, d.Refs(), k, resolved[k])
        decreases |todo|
      {
        var k :| k in todo;
        todo := todo - {k};
        if ByName(k) {
          if !Known(m, k) {
            return None;
          }
          resolved := resolved[Key(Resolve(sid, m, k)) := refs[k]];
          assert CameFrom(sid, m, d.Refs(), Key(Resolve(sid, m, k)), refs[k]);
        }
      }
      return Some(Input(name, d.info, d.origin, resolved, d.options));
    }
    if d.origin == SOURCE && !(refs.Keys <= sources) {
      return None;
    }
    r := Some(Input(name, d.info, d.origin, refs, d.options));
  }

  // --------------------------------------------------------------------- devices

  function Lookup(devices: seq<Device>, name: string): (d: Option<Device>)
    ensures d.Some? ==> d.value in devices && d.value.name == name
    ensures d.None? ==> forall e :: e in devices ==> e.name != name
  {
    if devices == [] then None else if devices[0].name == name then Some(devices[0]) else Lookup(devices[1..], name)
  }

  // Device `k` is what `it` describes, its parent one of those before it.
  ghost predicate DeviceAt(it: Sort.Item, devices: seq<Device>, k: nat)
    requires k < |devices|
  {
    && devices[k].name == it.name && devices[k].info == it.desc.info && devices[k].options == it.desc.options
    && devices[k].parent.Some? == Sort.HasParent(it)
    && (Sort.HasParent(it) ==>
          devices[k].parent.value in devices[..k] && devices[k].parent.value.name == it.desc.parent.value)
  }

  ghost predicate DistinctDevices(devices: seq<Device>) {
    forall i, j :: 0 <= i < j < |devices| ==> devices[i].name != devices[j].name
  }

  ghost predicate HasDevice(it: Sort.Item, devices: seq<Device>) {
    exists k :: 0 <= k < |devices| && DeviceAt(it, devices, k)
  }

  ghost predicate FromItems(items: seq<Sort.Item>, devices: seq<Device>, k: nat)
    requires k < |devices|
  {
    exists it :: it in items && DeviceAt(it, devices, k)
  }

  ghost predicate DevicesLoaded(items: seq<Sort.Item>, devices: seq<Device>) {
    && DistinctDevices(devices)
    && (forall it :: it in items && it.name != "" ==> HasDevice(it, devices))
    && (forall k: nat :: k < |devices| ==> FromItems(items, devices, k))
  }

  // The devices can be ordered.
  ghost predicate Sortable(items: seq<Sort.Item>) {
    Sort.AllKnown(items) && !exists d :: d in items && Sort.NeverEnds(items, d.name)
  }

  method LoadDevices(items: seq<Sort.Item>) returns (r: Option<seq<Device>>)
    requires Sort.DistinctNames(items)
    ensures r.Some? <==> Sortable(items)
    ensures r.Some? ==> DevicesLoaded(items, r.value)
  {
    var sorted := Sort.Sort(items);
    if sorted.Failure? {
      assert sorted.error.MissingParent? || sorted.error.Cycle?;
      return None;
    }
    var devices: seq<Device> := [];
    var i := 0;
    while i < |sorted.value|
      invariant 0 <= i <= |sorted.value| && |devices| == i
      invariant forall k :: 0 <= k < i ==> DeviceAt(sorted.value[k], devices, k)
    {
      var it := sorted.value[i];
      var parent: Option<Device> := None;
      if Sort.HasParent(it) {
        parent := Lookup(devices, it.desc.parent.value);
        ParentIsThere(sorted.value, devices, i);
      }
      ghost var before := devices;
      devices := devices + [Device(it.name, it.desc.info, parent, it.desc.options)];
      assert forall k :: 0 <= k <= i ==> devices[..k] == before[..k];
      i := i + 1;
    }
    SortedLoads(items, sorted.value, devices);
    r := Some(devices);
  }

  lemma ParentIsThere(sorted: seq<Sort.Item>, devices: seq<Device>, i: nat)
    requires i < |sorted| && |devices| == i && Sort.ParentsFirst(sorted) && Sort.HasParent(sorted[i])
    requires forall k :: 0 <= k < i ==> DeviceAt(sorted[k], devices, k)
    ensures Lookup(devices, sorted[i].desc.parent.value).Some?
  {
    assert Sort.IsKey(sorted[..i], sorted[i].desc.parent.value);
    var j :| 0 <= j < i && sorted[..i][j].name == sorted[i].desc.parent.value;
    assert devices[j] in devices && DeviceAt(sorted[j], devices, j);
  }

  lemma SortedLoads(items: seq<Sort.Item>, sorted: seq<Sort.Item>, devices: seq<Device>)
    requires Sort.Ordered(items, sorted) && |devices| == |sorted|
    requires forall d :: d in items && d.name != "" ==> d in sorted
    requires forall k :: 0 <= k < |sorted| ==> DeviceAt(sorted[k], devices, k)
    ensures DevicesLoaded(items, devices)
  {
    forall it | it in items && it.name != "" ensures HasDevice(it, devices) {
      var k :| 0 <= k < |sorted| && sorted[k] == it;
      assert DeviceAt(it, devices, k);
    }
    forall k: nat | k < |devices| ensures FromItems(items, devices, k) {
      assert sorted[k] in items && DeviceAt(sorted[k], devices, k);
    }
    forall i, j | 0 <= i < j < |devices| ensures devices[i].name != devices[j].name {
      assert DeviceAt(sorted[i], devices, i) && DeviceAt(sorted[j], devices, j);
    }
  }

  // ---------------------------------------------------------------------- mounts

  ghost predicate MountLoaded(devices: seq<Device>, d: MountDesc, m: Mount) {
    && m.name == d.name && m.info == d.info && m.options == d.options
    && m.partition == d.partition && m.target == d.target
    && m.device.Some? == Truthy(d.source)
    && (m.device.Some? ==> m.device.value in devices && m.device.value.name == d.source.value)
  }

  ghost predicate MountsLoadable(names: set<string>, mounts: seq<MountDesc>) {
    && (forall i, j :: 0 <= i < j < |mounts| ==> mounts[i].name != mounts[j].name)
    && (forall k :: 0 <= k < |mounts| && Truthy(mounts[k].source) ==> mounts[k].source.value in names)
  }

  function Names(devices: seq<Device>): set<string> { set d | d in devices :: d.name }

  method LoadMounts(devices: seq<Device>, mounts: seq<MountDesc>) returns (r: Option<seq<Mount>>)
    ensures r.Some? <==> MountsLoadable(Names(devices), mounts)
    ensures r.Some? ==>
      |r.value| == |mounts| && forall k :: 0 <= k < |mounts| ==> MountLoaded(devices, mounts[k], r.value[k])
  {
    var loaded: seq<Mount> := [];
    var names: set<string> := {};
    var i := 0;
    while i < |mounts|
      invariant 0 <= i <= |mounts| && |loaded| == i && MountsLoadable(Names(devices), mounts[..i])
      invariant names == set k | 0 <= k < i :: mounts[k].name
      invariant forall k :: 0 <= k < i ==> MountLoaded(devices, mounts[k], loaded[k])
    {
      var d := mounts[i];
      if d.name in names {
        return None;
      }
      var device: Option<Device> := None;
      if Truthy(d.source) {
        device := Lookup(devices, d.source.value);
        if device.None? {
          return None;
        }
      }
      loaded := loaded + [Mount(d.name, d.info, device, d.partition, d.target, d.options)];
      names := names + {d.name};
      i := i + 1;
    }
    assert mounts[..i] == mounts;
    r := Some(loaded);
  }

  // ---------------------------------------------------------------------- stages

  // Device names of a description; the loaded devices have all of them but "".
  function ItemNames(items: seq<Sort.Item>): set<string> { set it | it in items :: it.name }

  ghost predicate StageLoadable(m: Manifest, sources: set<string>, d: StageDesc) {
    && Sortable(d.devices) && MountsLoadable(ItemNames(d.devices), d.mounts)
    && forall n :: n in d.inputs ==> InputLoadable(m, sources, d.inputs[n])
  }

  ghost predicate StageLoaded(sid: IdFunction, m: Manifest, d: StageDesc, s: Stage) {
    && s.info == d.info && s.options == d.options
    && DevicesLoaded(d.devices, s.devices)
    && s.inputs.Keys == d.inputs.Keys && (forall n :: n in d.inputs ==> InputLoaded(sid, m, d.inputs[n], s.inputs[n]))
    && |s.mounts| == |d.mounts|
    && (forall k :: 0 <= k < |d.mounts| ==> MountLoaded(s.devices, d.mounts[k], s.mounts[k]))
  }

  method LoadInputs(sid: IdFunction, m: Manifest, sources: set<string>, descs: map<string, InputDesc>)
    returns (r: Option<map<string, Input>>)
    ensures r.Some? <==> forall n :: n in descs ==> InputLoadable(m, sources, descs[n])
    ensures r.Some? ==>
      r.value.Keys == descs.Keys && forall n :: n in descs ==> InputLoaded(sid, m, descs[n], r.value[n])
  {
    var todo := descs.Keys;
    var inputs: map<string, Input> := map[];
    while todo != {}
      invariant todo <= descs.Keys && inputs.Keys == descs.Keys - todo
      invariant forall n :: n in inputs ==>
        InputLoadable(m, sources, descs[n]) && InputLoaded(sid, m, descs[n], inputs[n])
      decreases |todo|
    {
      var n :| n in todo;
      todo := todo - {n};
      var i := LoadInput(sid, m, sources, n, descs[n]);
      if i.None? {
        return None;
      }
      inputs := inputs[n := i.value];
    }
    r := Some(inputs);
  }

  method LoadStage(sid: IdFunction, m: Manifest, sources: set<string>, d: StageDesc, base: Stage)
    returns (r: Option<Stage>)
    requires Sort.DistinctNames(d.devices) && base.info == d.info && base.options == d.options
    ensures r.Some? <==> StageLoadable(m, sources, d)
    ensures r.Some? ==> StageLoaded(sid, m, d, r.value)
    ensures r.Some? ==> r.value == base.(inputs := r.value.inputs, devices := r.value.devices, mounts := r.value.mounts)
  {
    var devices := LoadDevices(d.devices);
    if devices.None? {
      return None;
    }
    SameNames(d.devices, devices.value);
    var inputs := LoadInputs(sid, m, sources, d.inputs);
    if inputs.None? {
      return None;
    }
    var mounts := LoadMounts(devices.value, d.mounts);
    if mounts.None? {
      return None;
    }
    r := Some(base.(inputs := inputs.value, devices := devices.value, mounts := mounts.value));
  }

  lemma SameNames(items: seq<Sort.Item>, devices: seq<Device>)
    requires DevicesLoaded(items, devices)
    ensures forall n :: n != "" ==> (n in Names(devices) <==> n in ItemNames(items))
  {
    forall n | n != "" && n in ItemNames(items) ensures n in Names(devices) {
      var it :| it in items && it.name == n;
      assert HasDevice(it, devices);
      var k :| 0 <= k < |devices| && DeviceAt(it, devices, k);
      assert devices[k] in devices;
    }
    forall n | n in Names(devices) ensures n in ItemNames(items) {
      var d :| d in devices && d.name == n;
      var k: nat :| k < |devices| && devices[k] == d;
      assert FromItems(items, devices, k);
      var it :| it in items && DeviceAt(it, devices, k);
    }
  }

  // ------------------------------------------------------------------- pipelines

  ghost predicate BuildLoaded(sid: IdFunction, m: Manifest, d: Option<string>, build: Option<string>) {
    build == if d.Some? && ByName(d.value) then Resolve(sid, m, d.value) else d
  }

  ghost predicate PipelineLoadable(m: Manifest, sources: set<string>, d: PipelineDesc) {
    && (d.build.Some? && ByName(d.build.value) ==> Known(m, d.build.value))
    && IndexOf(m, d.name) == |m|
    && forall k :: 0 <= k < |d.stages| ==> StageLoadable(m, sources, d.stages[k])
  }

  ghost predicate PipelineLoaded(sid: IdFunction, m: Manifest, d: PipelineDesc, p: PipelineData) {
    && p.name == d.name && p.epoch == d.epoch && BuildLoaded(sid, m, d.build, p.build)
    && |p.stages| == |d.stages| && Linked(sid, p.stages)
    && forall k :: 0 <= k < |p.stages| ==>
         StageLoaded(sid, m, d.stages[k], p.stages[k]) && p.stages[k].build == p.build && p.stages[k].epoch == p.epoch
  }

  ghost predicate WellFormed(d: PipelineDesc) {
    forall k :: 0 <= k < |d.stages| ==> Sort.DistinctNames(d.stages[k].devices)
  }

  method LoadPipeline(sid: IdFunction, host: string, m: Manifest, sources: set<string>, d: PipelineDesc)
    returns (r: Option<PipelineData>)
    requires WellFormed(d)
    ensures r.Some? <==> PipelineLoadable(m, sources, d)
    ensures r.Some? ==>
      PipelineLoaded(sid, m, d, r.value) && r.value.runner == (if Truthy(d.runner) then d.runner.value else host)
  {
    var build := d.build;
    if build.Some? && ByName(build.value) {
      if !Known(m, build.value) {
        return None;
      }
      build := Resolve(sid, m, build.value);
    }
    if IndexOf(m, d.name) < |m| {
      return None;
    }
    var stages: seq<Stage> := [];
    var i := 0;
    while i < |d.stages|
      invariant 0 <= i <= |d.stages| && |stages| == i && Linked(sid, stages)
      invariant forall k :: 0 <= k < i ==> StageLoadable(m, sources, d.stages[k])
      invariant forall k :: 0 <= k < i ==>
        StageLoaded(sid, m, d.stages[k], stages[k]) && stages[k].build == build && stages[k].epoch == d.epoch
    {
      var desc := d.stages[i];
      var base := Stage(desc.info, build, LastId(sid, stages), desc.options, d.epoch, map[], [], []);
      var s := LoadStage(sid, m, sources, desc, base);
      if s.None? {
        return None;
      }
      LinkedGrows(sid, stages, s.value);
      stages := stages + [s.value];
      i := i + 1;
    }
    r := Some(PipelineData(d.name, build, if Truthy(d.runner) then d.runner.value else host, d.epoch, stages));
  }

  lemma LinkedGrows(sid: IdFunction, stages: seq<Stage>, s: Stage)
    requires Linked(sid, stages) && s.base == LastId(sid, stages)
    ensures Linked(sid, stages + [s])
  {
    var longer := stages + [s];
    forall i | 0 <= i < |longer| ensures LinkedAt(sid, longer, i) {
      assert longer[..i] == stages[..i];
      assert i < |stages| ==> LinkedAt(sid, stages, i);
      assert stages[..|stages|] == stages;
    }
  }

  // ------------------------------------------------------------------- manifests

  // The runner a description asks for, for building with pipeline `id`: the one of
  // the last pipeline with that id.
  function RunnerFor(sid: IdFunction, m: Manifest, id: string): Option<string> {
    if m == [] then None
    else if Id(sid, m[|m| - 1]) == Some(id) then Some(m[|m| - 1].runner)
    else RunnerFor(sid, m[..|m| - 1], id)
  }

  // Equal but for the runners.
  ghost predicate SamePipelines(a: Manifest, b: Manifest) {
    |a| == |b| && forall i :: 0 <= i < |a| ==> b[i] == a[i].(runner := b[i].runner)
  }

  // `raw` still has the runners as described; `m` pairs each pipeline with the
  // runner of its build pipeline.
  ghost predicate Paired(sid: IdFunction, host: string, raw: Manifest, m: Manifest) {
    && SamePipelines(raw, m)
    && forall i :: 0 <= i < |m| ==>
         if Truthy(m[i].build) then RunnerFor(sid, raw, m[i].build.value) == Some(m[i].runner) else m[i].runner == host
  }

  ghost predicate RawLoaded(sid: IdFunction, host: string, sources: set<string>, descs: seq<PipelineDesc>,
                            raw: Manifest)
  {
    && |raw| == |descs|
    && forall i :: 0 <= i < |raw| ==> RawAt(sid, host, sources, descs, raw, i)
  }

  ghost predicate RawAt(sid: IdFunction, host: string, sources: set<string>, descs: seq<PipelineDesc>, raw: Manifest,
                        i: int)
    requires 0 <= i < |raw| <= |descs|
  {
    && PipelineLoadable(raw[..i], sources, descs[i]) && PipelineLoaded(sid, raw[..i], descs[i], raw[i])
    && IndexOf(raw[..i], raw[i].name) == i
    && raw[i].runner == (if Truthy(descs[i].runner) then descs[i].runner.value else host)
  }

  ghost predicate Loaded(sid: IdFunction, host: string, sources: set<string>, descs: seq<PipelineDesc>, raw: Manifest,
                         m: Manifest)
  {
    RawLoaded(sid, host, sources, descs, raw) && Paired(sid, host, raw, m)
  }

  /** Loading.  `raw` is the manifest before runners are paired with build pipelines. */
  method Load(sid: IdFunction, host: string, sources: set<string>, descs: seq<PipelineDesc>)
    returns (r: Option<Manifest>, ghost raw: Manifest)
    requires forall i :: 0 <= i < |descs| ==> WellFormed(descs[i])
    ensures r.Some? ==> Loaded(sid, host, sources, descs, raw, r.value)
    ensures r.Some? ==> |r.value| == |descs| && forall i :: 0 <= i < |descs| ==>
      r.value[i].name == descs[i].name && r.value[i].epoch == descs[i].epoch && |r.value[i].stages| == |descs[i].stages|
    ensures r.None? ==>
      || (|raw| < |descs| && !PipelineLoadable(raw, sources, descs[|raw|]))
      || (|raw| == |descs| && exists p :: p in raw && Truthy(p.build) && RunnerFor(sid, raw, p.build.value).None?)
    ensures r.None? ==> |raw| <= |descs| && forall i :: 0 <= i < |raw| ==> RawAt(sid, host, sources, descs, raw, i)
  {
    var m: Manifest := [];
    raw := [];
    var i := 0;
    while i < |descs|
      invariant 0 <= i <= |descs| && |m| == i
      invariant forall k :: 0 <= k < i ==> RawAt(sid, host, sources, descs, m, k)
    {
      var p := LoadPipeline(sid, host, m, sources, descs[i]);
      if p.None? {
        raw := m;
        return None, raw;
      }
      RawGrows(sid, host, sources, descs, m, p.value);
      m := m + [p.value];
      i := i + 1;
    }
    raw := m;
    var paired: Manifest := [];
    i := 0;
    while i < |m|
      invariant 0 <= i <= |m| && |paired| == i && raw == m
      invariant forall k :: 0 <= k < i ==> paired[k] == m[k].(runner := paired[k].runner)
      invariant forall k :: 0 <= k < i ==>
        if Truthy(m[k].build) then RunnerFor(sid, m, m[k].build.value) == Some(paired[k].runner)
        else paired[k].runner == host
    {
      var runner := Some(host);
      if Truthy(m[i].build) {
        runner := RunnerFor(sid, m, m[i].build.value);
        if runner.None? {
          assert m[i] in raw;
          return None, raw;
        }
      }
      paired := paired + [m[i].(runner := runner.value)];
      i := i + 1;
    }
    forall k | 0 <= k < |descs|
      ensures m[k].name == descs[k].name && m[k].epoch == descs[k].epoch && |m[k].stages| == |descs[k].stages|
    {
      assert RawAt(sid, host, sources, descs, m, k);
    }
    r := Some(paired);
  }

  lemma RawGrows(sid: IdFunction, host: string, sources: set<string>, descs: seq<PipelineDesc>, m: Manifest,
                 p: PipelineData)
    requires |m| < |descs| && forall k :: 0 <= k < |m| ==> RawAt(sid, host, sources, descs, m, k)
    requires PipelineLoadable(m, sources, descs[|m|]) && PipelineLoaded(sid, m, descs[|m|], p)
    requires IndexOf(m, p.name) == |m|
    requires p.runner == (if Truthy(descs[|m|].runner) then descs[|m|].runner.value else host)
    ensures forall k :: 0 <= k <= |m| ==> RawAt(sid, host, sources, descs, m + [p], k)
  {
    forall k | 0 <= k <= |m| ensures RawAt(sid, host, sources, descs, m + [p], k) {
      assert (m + [p])[..k] == m[..k];
      assert m[..|m|] == m;
      assert k < |m| ==> RawAt(sid, host, sources, descs, m, k);
    }
  }
}
