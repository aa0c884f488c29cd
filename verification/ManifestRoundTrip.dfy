/**
  Describing a loaded manifest and loading the description again
  (osbuild/formats/v2.py:18-175).

  A description has no source epoch and no device parents.  Everything that counts
  for an id survives exactly when a manifest uses neither: no epoch, and no mount on
  a device with a parent.
 */
module ManifestRoundTrip {
  import opened Wrappers
  import opened JsonText
  import opened Dicts
  import opened ContentId
  import opened ManifestV2
  import Sort = SortDevices

  // ------------------------------------------------------------------- describing

  // `Manifest.get`: names take precedence over ids.
  function Get(sid: IdFunction, m: Manifest, ref: string): Option<PipelineData> {
    if IndexOf(m, ref) < |m| then Some(m[IndexOf(m, ref)]) else FirstWithId(sid, m, ref)
  }

  function FirstWithId(sid: IdFunction, m: Manifest, id: string): (p: Option<PipelineData>)
    ensures p.Some? ==> p.value in m && Id(sid, p.value) == Some(id)
    ensures p.None? ==> forall q :: q in m ==> Id(sid, q) != Some(id)
  {
    if m == [] then None else if Id(sid, m[0]) == Some(id) then Some(m[0]) else FirstWithId(sid, m[1..], id)
  }

  // `describe` raises a KeyError where this returns "".
  function PipelineRef(sid: IdFunction, m: Manifest, pid: string): string {
    match Get(sid, m, pid)
    case Some(p) => "name:" + p.name
    case None => ""
  }

  // The references of a pipeline input, under names.
  ghost function Renamed(sid: IdFunction, m: Manifest, refs: Dict): Dict {
    map r | r in NewNames(sid, m, refs) :: refs[OldKey(sid, m, refs, r)]
  }

  ghost function NewNames(sid: IdFunction, m: Manifest, refs: Dict): set<string> {
    set k | k in refs :: PipelineRef(sid, m, k)
  }

  ghost function OldKey(sid: IdFunction, m: Manifest, refs: Dict, r: string): (k: string)
    requires r in NewNames(sid, m, refs)
    ensures RenamesTo(sid, m, refs, k, r)
  {
    assert exists k :: RenamesTo(sid, m, refs, k, r) by {
      var k :| k in refs && PipelineRef(sid, m, k) == r;
      assert RenamesTo(sid, m, refs, k, r);
    }
    var k :| RenamesTo(sid, m, refs, k, r);
    k
  }

  ghost predicate RenamesTo(sid: IdFunction, m: Manifest, refs: Dict, k: string, r: string) {
    k in refs && PipelineRef(sid, m, k) == r
  }

  ghost predicate RenamedFrom(sid: IdFunction, m: Manifest, refs: Dict, r: string, v: Json) {
    exists k :: RenamesTo(sid, m, refs, k, r) && v == refs[k]
  }

  ghost function DescribeInput(sid: IdFunction, m: Manifest, i: Input): InputDesc {
    InputDesc(i.info, i.origin, Named(if i.origin == PIPELINE then Renamed(sid, m, i.refs) else i.refs), i.options)
  }

  function DescribeDevice(d: Device): Sort.Item { Sort.Item(d.name, Sort.Desc(d.info, None, d.options)) }

  function DescribeMount(m: Mount): MountDesc {
    MountDesc(m.name, m.info, if m.device.Some? then Some(m.device.value.name) else None,
              if HasPartition(m) then m.partition else None, m.target, m.options)
  }

  ghost function DescribeStage(sid: IdFunction, m: Manifest, s: Stage): StageDesc {
    StageDesc(s.info, s.options,
              seq(|s.devices|, k requires 0 <= k < |s.devices| => DescribeDevice(s.devices[k])),
              map n | n in s.inputs :: DescribeInput(sid, m, s.inputs[n]),
              seq(|s.mounts|, k requires 0 <= k < |s.mounts| => DescribeMount(s.mounts[k])))
  }

  // The runner of the last pipeline built with pipeline `id`.
  function UserRunner(m: Manifest, id: Option<string>): Option<string> {
    if m == [] then None
    else if Truthy(m[|m| - 1].build) && m[|m| - 1].build == id then Some(m[|m| - 1].runner)
    else UserRunner(m[..|m| - 1], id)
  }

  ghost function DescribePipeline(sid: IdFunction, m: Manifest, p: PipelineData): PipelineDesc {
    PipelineDesc(p.name, if Truthy(p.build) then Some(PipelineRef(sid, m, p.build.value)) else None,
                 UserRunner(m, Id(sid, p)), None,
                 seq(|p.stages|, k requires 0 <= k < |p.stages| => DescribeStage(sid, m, p.stages[k])))
  }

  ghost function Describe(sid: IdFunction, m: Manifest): (r: seq<PipelineDesc>)
    ensures |r| == |m| && forall i :: 0 <= i < |r| ==> r[i] == DescribePipeline(sid, m, m[i])
  {
    seq(|m|, i requires 0 <= i < |m| => DescribePipeline(sid, m, m[i]))
  }

  // ------------------------------------------------------------------- conditions

  // Ids exist, are distinct, and are no names; names are distinct.
  ghost predicate Presentable(sid: IdFunction, m: Manifest) {
    && (forall i :: 0 <= i < |m| ==> Truthy(Id(sid, m[i])))
    && (forall i, j :: 0 <= i < j < |m| ==> Id(sid, m[i]) != Id(sid, m[j]) && m[i].name != m[j].name)
    && (forall i, j :: 0 <= i < |m| && 0 <= j < |m| ==> Id(sid, m[i]) != Some(m[j].name))
  }

  ghost predicate NoMountedParents(s: Stage) {
    forall k :: 0 <= k < |s.mounts| && s.mounts[k].device.Some? ==> s.mounts[k].device.value.parent.None?
  }

  // The same names and ids.
  ghost predicate Agree(sid: IdFunction, a: Manifest, b: Manifest) {
    |a| == |b| && forall i :: 0 <= i < |a| ==> a[i].name == b[i].name && Id(sid, a[i]) == Id(sid, b[i])
  }

  // ------------------------------------------------------------------- references

  lemma {:induction false} IndexAgrees(sid: IdFunction, a: Manifest, b: Manifest, name: string)
    requires Agree(sid, a, b)
    ensures IndexOf(a, name) == IndexOf(b, name)
  {
    if a != [] {
      assert Agree(sid, a[1..], b[1..]);
      IndexAgrees(sid, a[1..], b[1..], name);
    }
  }

  // The id `k` is described by a name that is resolved to `k` again.
  ghost predicate Back(sid: IdFunction, m: Manifest, part: Manifest, k: string) {
    var r := PipelineRef(sid, m, k); ByName(r) && Known(part, r) && Resolve(sid, part, r) == Some(k)
  }

  lemma RefBack(sid: IdFunction, m: Manifest, part: Manifest, n: nat, j: nat)
    requires Presentable(sid, m) && j < n <= |m| && Agree(sid, part, m[..n])
    ensures Back(sid, m, part, Id(sid, m[j]).value)
  {
    var id := Id(sid, m[j]).value;
    var r := PipelineRef(sid, m, id);
    assert IndexOf(m, id) == |m|;
    var p := FirstWithId(sid, m, id);
    assert m[j] in m && p.Some?;
    var k :| 0 <= k < |m| && m[k] == p.value;
    assert k == j;
    assert r == "name:" + m[j].name && r[5..] == m[j].name && r[..5] == "name:";
    IndexAgrees(sid, part, m[..n], m[j].name);
    var i := IndexOf(m[..n], m[j].name);
    assert i <= j by { assert m[..n][j].name == m[j].name; }
    assert i == j by { assert m[..n][i] == m[i]; }
  }

  // A key of a loaded pipeline input is the id of an earlier pipeline.
  lemma KeysBack(sid: IdFunction, m: Manifest, part0: Manifest, part: Manifest, n: nat, refs: Dict, out: Dict)
    requires Presentable(sid, m) && n <= |m| && Agree(sid, part0, m[..n]) && Agree(sid, part, m[..n])
    requires Rekeyed(sid, part0, refs, out) && forall r :: r in refs && ByName(r) ==> Known(part0, r)
    ensures forall k :: k in out ==> Back(sid, m, part, k)
  {
    forall k | k in out ensures Back(sid, m, part, k) {
      assert CameFrom(sid, part0, refs, k, out[k]);
      var r :| r in refs && ByName(r) && Key(Resolve(sid, part0, r)) == k && refs[r] == out[k];
      var j := IndexOf(part0, r[5..]);
      assert m[..n][j] == m[j];
      RefBack(sid, m, part, n, j);
    }
  }

  lemma RenamedKey(sid: IdFunction, m: Manifest, refs: Dict, k: string)
    requires k in refs
    ensures PipelineRef(sid, m, k) in Renamed(sid, m, refs)
  {
  }

  lemma RenamedValue(sid: IdFunction, m: Manifest, refs: Dict, r: string)
    requires r in Renamed(sid, m, refs)
    ensures RenamedFrom(sid, m, refs, r, Renamed(sid, m, refs)[r])
  {
    assert RenamesTo(sid, m, refs, OldKey(sid, m, refs, r), r);
  }

  lemma KeyReloads(sid: IdFunction, m: Manifest, part: Manifest, refs: Dict, out: Dict, k: string)
    requires Rekeyed(sid, part, Renamed(sid, m, refs), out) && k in refs && Back(sid, m, part, k)
    ensures k in out
  {
    RenamedKey(sid, m, refs, k);
  }

  lemma KeysReload(sid: IdFunction, m: Manifest, part: Manifest, refs: Dict, out: Dict)
    requires forall k :: k in refs ==> Back(sid, m, part, k)
    requires Rekeyed(sid, part, Renamed(sid, m, refs), out)
    ensures refs.Keys <= out.Keys
  {
    forall k | k in refs ensures k in out {
      KeyReloads(sid, m, part, refs, out, k);
    }
  }

  lemma ValuesReload(sid: IdFunction, m: Manifest, part: Manifest, refs: Dict, out: Dict)
    requires forall k :: k in refs ==> Back(sid, m, part, k)
    requires Rekeyed(sid, part, Renamed(sid, m, refs), out)
    ensures forall k :: k in out ==> k in refs && out[k] == refs[k]
  {
    var named := Renamed(sid, m, refs);
    forall k | k in out ensures k in refs && out[k] == refs[k] {
      ValueReloads(sid, m, part, refs, named, k, out[k]);
    }
  }

  lemma RefsReload(sid: IdFunction, m: Manifest, part: Manifest, refs: Dict, out: Dict)
    requires forall k :: k in refs ==> Back(sid, m, part, k)
    requires Rekeyed(sid, part, Renamed(sid, m, refs), out)
    ensures out == refs
  {
    KeysReload(sid, m, part, refs, out);
    ValuesReload(sid, m, part, refs, out);
    EqualDicts(out, refs);
  }

  lemma ValueReloads(sid: IdFunction, m: Manifest, part: Manifest, refs: Dict, named: Dict, k: string, v: Json)
    requires forall k :: k in refs ==> Back(sid, m, part, k)
    requires named == Renamed(sid, m, refs) && CameFrom(sid, part, named, k, v)
    ensures k in refs && v == refs[k]
  {
    var r :| r in named && ByName(r) && Key(Resolve(sid, part, r)) == k && named[r] == v;
    RenamedValue(sid, m, refs, r);
    var k0 :| RenamesTo(sid, m, refs, k0, r) && named[r] == refs[k0];
    assert Back(sid, m, part, k0);
  }

  lemma InputReload(sid: IdFunction, m: Manifest, part0: Manifest, part: Manifest, n: nat, sources: set<string>,
                    d0: InputDesc, i: Input, i': Input)
    requires Presentable(sid, m) && n <= |m| && Agree(sid, part0, m[..n]) && Agree(sid, part, m[..n])
    requires InputLoadable(part0, sources, d0) && InputLoaded(sid, part0, d0, i)
    ensures InputLoadable(part, sources, DescribeInput(sid, m, i))
    ensures InputLoaded(sid, part, DescribeInput(sid, m, i), i') ==> SameInput(i, i')
  {
    if i.origin == PIPELINE {
      KeysBack(sid, m, part0, part, n, d0.Refs(), i.refs);
      var named := Renamed(sid, m, i.refs);
      forall r | r in named && ByName(r) ensures Known(part, r) {
        RenamedValue(sid, m, i.refs, r);
        var k :| RenamesTo(sid, m, i.refs, k, r) && named[r] == i.refs[k];
        assert Back(sid, m, part, k);
      }
      if InputLoaded(sid, part, DescribeInput(sid, m, i), i') {
        RefsReload(sid, m, part, i.refs, i'.refs);
      }
    }
  }

  // --------------------------------------------------------------------- devices

  ghost predicate DescribedItems(devices: seq<Device>, items: seq<Sort.Item>) {
    |items| == |devices| && forall k :: 0 <= k < |items| ==> items[k] == DescribeDevice(devices[k])
  }

  lemma NoParentsSort(devices: seq<Device>, items: seq<Sort.Item>)
    requires DistinctDevices(devices) && DescribedItems(devices, items)
    ensures Sort.DistinctNames(items) && Sortable(items)
    ensures forall n :: n in ItemNames(items) <==> n in Names(devices)
  {
    forall d | d in items ensures !Sort.HasParent(d) && !Sort.NeverEnds(items, d.name) {
      Sort.FindUnique(items, d);
      assert !Sort.Climbs(items, d.name, 1);
    }
    forall d | d in devices ensures d.name in ItemNames(items) {
      var k :| 0 <= k < |devices| && devices[k] == d;
      assert items[k] in items;
    }
    forall it | it in items ensures it.name in Names(devices) {
      var k :| 0 <= k < |items| && items[k] == it;
      assert devices[k] in devices;
    }
  }

  // The reloaded device with the same name has the same description.
  lemma DeviceReload(devices: seq<Device>, items: seq<Sort.Item>, devices': seq<Device>, d: Device, d': Device)
    requires DistinctDevices(devices) && DescribedItems(devices, items) && DevicesLoaded(items, devices')
    requires d in devices && d' in devices' && d.name == d'.name
    ensures d'.info == d.info && d'.options == d.options && d'.parent.None?
    ensures SameDevice(d, d') <==> d.parent.None?
  {
    var i :| 0 <= i < |devices| && devices[i] == d;
    var k: nat :| k < |devices'| && devices'[k] == d';
    assert FromItems(items, devices', k);
    var it :| it in items && DeviceAt(it, devices', k);
    var j :| 0 <= j < |items| && items[j] == it;
    assert i == j;
  }

  lemma MountReload(devices: seq<Device>, items: seq<Sort.Item>, devices': seq<Device>, d0: MountDesc, mt: Mount,
                    mt': Mount)
    requires DistinctDevices(devices) && DescribedItems(devices, items) && DevicesLoaded(items, devices')
    requires MountLoaded(devices, d0, mt) && MountLoaded(devices', DescribeMount(mt), mt')
    ensures SameMount(mt, mt') <==> (mt.device.Some? ==> mt.device.value.parent.None?)
  {
    if mt.device.Some? {
      DeviceReload(devices, items, devices', mt.device.value, mt'.device.value);
    }
  }

  // ---------------------------------------------------------------------- stages

  // `s` was loaded from `d0` when the pipelines before were `part0`.
  ghost predicate Origin(sid: IdFunction, part0: Manifest, sources: set<string>, d0: StageDesc, s: Stage) {
    StageLoadable(part0, sources, d0) && StageLoaded(sid, part0, d0, s)
  }

  lemma StageReloads(sid: IdFunction, m: Manifest, part0: Manifest, part: Manifest, n: nat, sources: set<string>,
                     d0: StageDesc, s: Stage)
    requires Presentable(sid, m) && n <= |m| && Agree(sid, part0, m[..n]) && Agree(sid, part, m[..n])
    requires Origin(sid, part0, sources, d0, s)
    ensures Sort.DistinctNames(DescribeStage(sid, m, s).devices)
    ensures StageLoadable(part, sources, DescribeStage(sid, m, s))
  {
    var d := DescribeStage(sid, m, s);
    NoParentsSort(s.devices, d.devices);
    forall nm | nm in d.inputs ensures InputLoadable(part, sources, d.inputs[nm]) {
      InputReload(sid, m, part0, part, n, sources, d0.inputs[nm], s.inputs[nm], s.inputs[nm]);
    }
    forall k | 0 <= k < |d.mounts| ensures d.mounts[k].name == d0.mounts[k].name
      && (Truthy(d.mounts[k].source) ==> d.mounts[k].source.value in Names(s.devices))
    {
      assert MountLoaded(s.devices, d0.mounts[k], s.mounts[k]);
    }
  }

  lemma StageReload(sid: IdFunction, m: Manifest, part0: Manifest, part: Manifest, n: nat, sources: set<string>,
                    d0: StageDesc, s: Stage, s': Stage)
    requires Presentable(sid, m) && n <= |m| && Agree(sid, part0, m[..n]) && Agree(sid, part, m[..n])
    requires Origin(sid, part0, sources, d0, s) && StageLoaded(sid, part, DescribeStage(sid, m, s), s')
    ensures s'.info == s.info && s'.options == s.options && SameInputs(s.inputs, s'.inputs)
    ensures SameMounts(s.mounts, s'.mounts) <==> NoMountedParents(s)
  {
    var d := DescribeStage(sid, m, s);
    forall nm | nm in s.inputs ensures SameInput(s.inputs[nm], s'.inputs[nm]) {
      InputReload(sid, m, part0, part, n, sources, d0.inputs[nm], s.inputs[nm], s'.inputs[nm]);
    }
    forall k | 0 <= k < |s.mounts|
      ensures SameMount(s.mounts[k], s'.mounts[k]) <==>
        (s.mounts[k].device.Some? ==> s.mounts[k].device.value.parent.None?)
    {
      MountReload(s.devices, d.devices, s'.devices, d0.mounts[k], s.mounts[k], s'.mounts[k]);
    }
  }

  // -------------------------------------------------------------------- pipelines

  ghost predicate SameButBase(a: Stage, b: Stage) {
    && a.info == b.info && a.build == b.build && a.options == b.options && a.epoch == b.epoch
    && SameInputs(a.inputs, b.inputs) && SameMounts(a.mounts, b.mounts)
  }

  // The same recipe has the same id.
  ghost predicate Respectful(sid: IdFunction) {
    forall a, b :: SameStage(a, b) ==> sid(a) == sid(b)
  }

  lemma {:induction false} ChainReload(sid: IdFunction, a: seq<Stage>, b: seq<Stage>, n: nat)
    requires Respectful(sid) && Linked(sid, a) && Linked(sid, b) && |a| == |b| && n <= |a|
    requires forall k :: 0 <= k < |a| ==> SameButBase(a[k], b[k])
    ensures forall k :: 0 <= k < n ==> SameStage(a[k], b[k]) && sid(a[k]) == sid(b[k])
  {
    if n > 0 {
      ChainReload(sid, a, b, n - 1);
      assert LinkedAt(sid, a, n - 1) && LinkedAt(sid, b, n - 1);
      assert n > 1 ==> sid(a[n - 2]) == sid(b[n - 2]);
      assert SameStage(a[n - 1], b[n - 1]);
    }
  }

  // Nothing a description leaves out.
  ghost predicate Plain(p: PipelineData) {
    p.epoch.None? && forall k :: 0 <= k < |p.stages| ==> NoMountedParents(p.stages[k])
  }

  // `m` was loaded from `d0`, whose build references are names.
  ghost predicate From(sid: IdFunction, host: string, sources: set<string>, d0: seq<PipelineDesc>, raw0: Manifest,
                       m: Manifest)
  {
    && Respectful(sid) && Loaded(sid, host, sources, d0, raw0, m) && Presentable(sid, m)
    && forall i :: 0 <= i < |d0| && d0[i].build.Some? ==> ByName(d0[i].build.value)
  }

  lemma PrefixAgrees(sid: IdFunction, raw: Manifest, m: Manifest, i: nat)
    requires SamePipelines(raw, m) && i <= |m|
    ensures Agree(sid, raw[..i], m[..i])
  {
    forall k | 0 <= k < i ensures raw[..i][k].name == m[..i][k].name && Id(sid, raw[..i][k]) == Id(sid, m[..i][k]) {
      assert m[k] == raw[k].(runner := m[k].runner);
    }
  }

  // The build pipeline of a loaded pipeline is an earlier one.
  lemma BuildIsEarlier(sid: IdFunction, host: string, sources: set<string>, d0: seq<PipelineDesc>, raw0: Manifest,
                       m: Manifest, i: nat)
    returns (j: nat)
    requires From(sid, host, sources, d0, raw0, m) && i < |m| && m[i].build.Some?
    ensures j < i && Id(sid, m[j]) == m[i].build
  {
    assert RawAt(sid, host, sources, d0, raw0, i);
    assert m[i] == raw0[i].(runner := m[i].runner);
    var part := raw0[..i];
    var r := d0[i].build.value;
    assert Known(part, r) && Resolve(sid, part, r) == m[i].build;
    j := IndexOf(part, r[5..]);
    assert part[j] == raw0[j] && m[j] == raw0[j].(runner := m[j].runner);
  }

  lemma NameIsNew(sid: IdFunction, m: Manifest, part: Manifest, i: nat)
    requires Presentable(sid, m) && i < |m| && Agree(sid, part, m[..i])
    ensures IndexOf(part, m[i].name) == |part|
  {
    assert forall j :: 0 <= j < i ==> part[j].name == m[..i][j].name == m[j].name;
  }

  // Once the pipelines before it are back, so can be the next.
  lemma PipelineReloads(sid: IdFunction, host: string, sources: set<string>, d0: seq<PipelineDesc>, raw0: Manifest,
                        m: Manifest, part: Manifest, i: nat)
    requires From(sid, host, sources, d0, raw0, m) && i < |m| && Agree(sid, part, m[..i])
    ensures WellFormed(Describe(sid, m)[i]) && PipelineLoadable(part, sources, Describe(sid, m)[i])
  {
    var d := DescribePipeline(sid, m, m[i]);
    PrefixAgrees(sid, raw0, m, i);
    NameIsNew(sid, m, part, i);
    if m[i].build.Some? {
      var j := BuildIsEarlier(sid, host, sources, d0, raw0, m, i);
      RefBack(sid, m, part, i, j);
    }
    forall k | 0 <= k < |d.stages|
      ensures Sort.DistinctNames(d.stages[k].devices) && StageLoadable(part, sources, d.stages[k])
    {
      StageOrigin(sid, host, sources, d0, raw0, m, i, k);
      StageReloads(sid, m, raw0[..i], part, i, sources, d0[i].stages[k], m[i].stages[k]);
    }
  }

  lemma StageOrigin(sid: IdFunction, host: string, sources: set<string>, d0: seq<PipelineDesc>, raw0: Manifest,
                    m: Manifest, i: nat, k: nat)
    requires From(sid, host, sources, d0, raw0, m) && i < |m| && k < |m[i].stages|
    ensures |raw0| == |m| && i < |d0| && k < |d0[i].stages|
    ensures Origin(sid, raw0[..i], sources, d0[i].stages[k], m[i].stages[k])
    ensures m[i].stages[k].build == m[i].build && m[i].stages[k].epoch == m[i].epoch && Linked(sid, m[i].stages)
  {
    assert RawAt(sid, host, sources, d0, raw0, i);
    assert m[i] == raw0[i].(runner := m[i].runner);
  }

  // What comes back: the same stages, exactly when nothing was left out.
  lemma PipelineReload(sid: IdFunction, host: string, sources: set<string>, d0: seq<PipelineDesc>, raw0: Manifest,
                       m: Manifest, part: Manifest, i: nat, p': PipelineData)
    requires From(sid, host, sources, d0, raw0, m) && i < |m| && Agree(sid, part, m[..i])
    requires PipelineLoaded(sid, part, Describe(sid, m)[i], p')
    ensures p'.name == m[i].name && p'.build == m[i].build && |p'.stages| == |m[i].stages|
    ensures Plain(m[i]) ==> SameStages(m[i].stages, p'.stages)
    ensures Plain(m[i]) ==> forall k :: 0 <= k < |p'.stages| ==> sid(p'.stages[k]) == sid(m[i].stages[k])
    ensures SameStages(m[i].stages, p'.stages) ==> Plain(m[i])
  {
    var a, b := m[i].stages, p'.stages;
    BuildReload(sid, host, sources, d0, raw0, m, part, i, p'.build);
    PrefixAgrees(sid, raw0, m, i);
    forall k | 0 <= k < |a|
      ensures SameButBase(a[k], b[k]) <==> m[i].epoch.None? && NoMountedParents(a[k])
    {
      StageOrigin(sid, host, sources, d0, raw0, m, i, k);
      StageReload(sid, m, raw0[..i], part, i, sources, d0[i].stages[k], a[k], b[k]);
    }
    if a != [] {
      StageOrigin(sid, host, sources, d0, raw0, m, i, 0);
    }
    if Plain(m[i]) {
      assert a == [] ==> Linked(sid, a);
      ChainReload(sid, a, b, |a|);
    }
    if SameStages(a, b) {
      assert forall k :: 0 <= k < |a| ==> SameButBase(a[k], b[k]);
      assert a != [] by { assert Truthy(Id(sid, m[i])); }
      assert SameButBase(a[0], b[0]);
    }
  }

  lemma BuildReload(sid: IdFunction, host: string, sources: set<string>, d0: seq<PipelineDesc>, raw0: Manifest,
                    m: Manifest, part: Manifest, i: nat, build: Option<string>)
    requires From(sid, host, sources, d0, raw0, m) && i < |m| && Agree(sid, part, m[..i])
    requires BuildLoaded(sid, part, DescribePipeline(sid, m, m[i]).build, build)
    ensures build == m[i].build
  {
    if m[i].build.Some? {
      var j := BuildIsEarlier(sid, host, sources, d0, raw0, m, i);
      RefBack(sid, m, part, i, j);
    }
  }

  // -------------------------------------------------------------------- manifests

  ghost predicate AllPlain(m: Manifest) { forall i :: 0 <= i < |m| ==> Plain(m[i]) }

  // The first `n` pipelines are back, stage by stage.
  lemma {:induction false} PrefixReload(sid: IdFunction, host: string, sources: set<string>, d0: seq<PipelineDesc>,
                                        raw0: Manifest, m: Manifest, raw': Manifest, n: nat)
    requires From(sid, host, sources, d0, raw0, m) && AllPlain(m) && n <= |raw'| <= |m|
    requires forall i :: 0 <= i < n ==> RawAt(sid, host, sources, Describe(sid, m), raw', i)
    ensures Agree(sid, raw'[..n], m[..n])
    ensures forall i :: 0 <= i < n ==> StageIdsKept(sid, raw'[i], m[i])
  {
    if n > 0 {
      PrefixReload(sid, host, sources, d0, raw0, m, raw', n - 1);
      assert RawAt(sid, host, sources, Describe(sid, m), raw', n - 1);
      PipelineReload(sid, host, sources, d0, raw0, m, raw'[..n - 1], n - 1, raw'[n - 1]);
      assert StageIdsKept(sid, raw'[n - 1], m[n - 1]);
      AgreeGrows(sid, raw', m, n - 1);
    }
  }

  lemma AgreeGrows(sid: IdFunction, a: Manifest, b: Manifest, n: nat)
    requires n < |a| && n < |b| && Agree(sid, a[..n], b[..n]) && StageIdsKept(sid, a[n], b[n])
    ensures Agree(sid, a[..n + 1], b[..n + 1])
  {
    AgreeOne(sid, a[..n], b[..n], a[n], b[n]);
    assert a[..n + 1] == a[..n] + [a[n]] && b[..n + 1] == b[..n] + [b[n]];
  }

  lemma AgreeOne(sid: IdFunction, a: Manifest, b: Manifest, p: PipelineData, q: PipelineData)
    requires Agree(sid, a, b) && p.name == q.name && Id(sid, p) == Id(sid, q)
    ensures Agree(sid, a + [p], b + [q])
  {
  }

  ghost predicate StageIdsKept(sid: IdFunction, p': PipelineData, p: PipelineData) {
    && p'.name == p.name && p'.build == p.build && |p'.stages| == |p.stages|
    && forall k :: 0 <= k < |p.stages| ==> sid(p'.stages[k]) == sid(p.stages[k])
  }

  // --------------------------------------------------------------------- runners

  ghost predicate DistinctIds(sid: IdFunction, m: Manifest) {
    forall i, j :: 0 <= i < j < |m| ==> Id(sid, m[i]) != Id(sid, m[j])
  }

  lemma {:induction false} RunnerForIs(sid: IdFunction, m: Manifest, j: nat, id: string)
    requires DistinctIds(sid, m) && j < |m| && Id(sid, m[j]) == Some(id)
    ensures RunnerFor(sid, m, id) == Some(m[j].runner)
  {
    if j < |m| - 1 {
      RunnerForIs(sid, m[..|m| - 1], j, id);
    }
  }

  lemma {:induction false} UserRunnerIs(m: Manifest, id: string, runner: string, i: nat)
    requires i < |m| && id != "" && m[i].build == Some(id)
    requires forall k :: 0 <= k < |m| && m[k].build == Some(id) ==> m[k].runner == runner
    ensures UserRunner(m, Some(id)) == Some(runner)
  {
    if m[|m| - 1].build != Some(id) {
      UserRunnerIs(m[..|m| - 1], id, runner, i);
    }
  }

  lemma {:induction false} RunnerNamed(sid: IdFunction, m: Manifest, id: string)
    requires RunnerFor(sid, m, id).Some? && forall i :: 0 <= i < |m| ==> m[i].runner != ""
    ensures RunnerFor(sid, m, id).value != ""
  {
    if Id(sid, m[|m| - 1]) != Some(id) {
      RunnerNamed(sid, m[..|m| - 1], id);
    }
  }

  // The description of a build pipeline asks for the runner its users have.
  lemma RunnerDescribed(sid: IdFunction, host: string, sources: set<string>, d0: seq<PipelineDesc>, raw0: Manifest,
                        m: Manifest, i: nat, j: nat)
    requires From(sid, host, sources, d0, raw0, m) && host != "" && i < |m| && j < |m|
    requires m[i].build.Some? && m[i].build == Id(sid, m[j])
    ensures DescribePipeline(sid, m, m[j]).runner == Some(m[i].runner) && m[i].runner != ""
  {
    var id := m[i].build.value;
    assert Truthy(Id(sid, m[j]));
    forall k | 0 <= k < |raw0| ensures raw0[k].runner != "" {
      assert RawAt(sid, host, sources, d0, raw0, k);
    }
    assert RunnerFor(sid, raw0, id) == Some(m[i].runner);
    RunnerNamed(sid, raw0, id);
    forall k | 0 <= k < |m| && m[k].build == Some(id) ensures m[k].runner == m[i].runner {
      assert RunnerFor(sid, raw0, id) == Some(m[k].runner);
    }
    UserRunnerIs(m, id, m[i].runner, i);
  }

  // ----------------------------------------------------------------- the theorems

  ghost predicate Kept(sid: IdFunction, m': Manifest, m: Manifest) {
    |m'| == |m| && forall i :: 0 <= i < |m| ==> StageIdsKept(sid, m'[i], m[i]) && m'[i].runner == m[i].runner
  }

  lemma SameDistinctIds(sid: IdFunction, raw: Manifest, m: Manifest)
    requires Presentable(sid, m) && Agree(sid, raw, m)
    ensures DistinctIds(sid, raw)
  {
  }

  lemma RunnerKept(sid: IdFunction, host: string, sources: set<string>, d0: seq<PipelineDesc>, raw0: Manifest,
                   m: Manifest, raw': Manifest, m': Manifest, i: nat)
    requires From(sid, host, sources, d0, raw0, m) && host != "" && i < |m|
    requires Loaded(sid, host, sources, Describe(sid, m), raw', m') && Agree(sid, raw', m)
    requires raw'[i].build == m[i].build
    ensures m'[i].runner == m[i].runner
  {
    assert m'[i] == raw'[i].(runner := m'[i].runner);
    if m[i].build.Some? {
      var j := BuildIsEarlier(sid, host, sources, d0, raw0, m, i);
      assert Truthy(Id(sid, m[j]));
      SameDistinctIds(sid, raw', m);
      RunnerForIs(sid, raw', j, m[i].build.value);
      RunnerDescribed(sid, host, sources, d0, raw0, m, i, j);
      assert RawAt(sid, host, sources, Describe(sid, m), raw', j);
    }
  }

  /** Describing a loaded manifest and loading the description keeps the pipelines,
      their order, every stage id and the pairing with runners. */
  lemma RoundTrip(sid: IdFunction, host: string, sources: set<string>, d0: seq<PipelineDesc>, raw0: Manifest,
                  m: Manifest, raw': Manifest, m': Manifest)
    requires From(sid, host, sources, d0, raw0, m) && AllPlain(m) && host != ""
    requires Loaded(sid, host, sources, Describe(sid, m), raw', m')
    ensures Kept(sid, m', m)
  {
    PrefixReload(sid, host, sources, d0, raw0, m, raw', |m|);
    assert raw'[..|m|] == raw' && m[..|m|] == m;
    forall i | 0 <= i < |m| ensures StageIdsKept(sid, m'[i], m[i]) && m'[i].runner == m[i].runner {
      assert StageIdsKept(sid, raw'[i], m[i]);
      assert m'[i] == raw'[i].(runner := m'[i].runner);
      RunnerKept(sid, host, sources, d0, raw0, m, raw', m', i);
    }
  }

  ghost predicate PlainManifest(h: string -> string, m: Manifest) {
    forall i :: 0 <= i < |m| ==> PlainChain(h, m[i].stages)
  }

  /** The ids survive only if nothing was left out: no epoch, and no mount on a
      device with a parent. */
  lemma IdsKeptOnlyIfPlain(h: string -> string, host: string, sources: set<string>, d0: seq<PipelineDesc>,
                           raw0: Manifest, m: Manifest, raw': Manifest, m': Manifest)
    requires Injective(h) && From(IdOf(h), host, sources, d0, raw0, m)
    requires Loaded(IdOf(h), host, sources, Describe(IdOf(h), m), raw', m')
    requires PlainManifest(h, m) && PlainManifest(h, m') && Agree(IdOf(h), m', m)
    ensures AllPlain(m)
  {
    var sid := IdOf(h);
    forall i | 0 <= i < |m| ensures Plain(m[i]) {
      assert RawAt(sid, host, sources, Describe(sid, m), raw', i);
      assert m'[i] == raw'[i].(runner := m'[i].runner);
      assert Agree(sid, raw'[..i], m[..i]) by {
        forall k | 0 <= k < i
          ensures raw'[..i][k].name == m[..i][k].name && Id(sid, raw'[..i][k]) == Id(sid, m[..i][k])
        {
          assert m'[k] == raw'[k].(runner := m'[k].runner);
        }
      }
      PipelineReload(sid, host, sources, d0, raw0, m, raw'[..i], i, raw'[i]);
      StageLinks(sid, host, sources, d0, raw0, m, i);
      ChainFaithful(h, m[i].stages, m'[i].stages);
    }
  }

  lemma StageLinks(sid: IdFunction, host: string, sources: set<string>, d0: seq<PipelineDesc>, raw0: Manifest,
                   m: Manifest, i: nat)
    requires From(sid, host, sources, d0, raw0, m) && i < |m|
    ensures Linked(sid, m[i].stages)
  {
    assert RawAt(sid, host, sources, d0, raw0, i);
    assert m[i] == raw0[i].(runner := m[i].runner);
  }

  // Loading a description of a loaded manifest does not fail.
  lemma NeverFails(sid: IdFunction, host: string, sources: set<string>, d0: seq<PipelineDesc>, raw0: Manifest,
                   m: Manifest, raw': Manifest)
    requires From(sid, host, sources, d0, raw0, m) && AllPlain(m) && |raw'| <= |m|
    requires forall i :: 0 <= i < |raw'| ==> RawAt(sid, host, sources, Describe(sid, m), raw', i)
    ensures |raw'| < |m| ==> PipelineLoadable(raw', sources, Describe(sid, m)[|raw'|])
    ensures |raw'| == |m| ==> forall p :: p in raw' && Truthy(p.build) ==> RunnerFor(sid, raw', p.build.value).Some?
  {
    var n := |raw'|;
    PrefixReload(sid, host, sources, d0, raw0, m, raw', n);
    assert raw'[..n] == raw';
    if n < |m| {
      PipelineReloads(sid, host, sources, d0, raw0, m, raw', n);
    } else {
      assert m[..n] == m;
      SameDistinctIds(sid, raw', m);
      forall p | p in raw' && Truthy(p.build) ensures RunnerFor(sid, raw', p.build.value).Some? {
        var i: nat :| i < n && raw'[i] == p;
        assert StageIdsKept(sid, raw'[i], m[i]);
        var j := BuildIsEarlier(sid, host, sources, d0, raw0, m, i);
        RunnerForIs(sid, raw', j, p.build.value);
      }
    }
  }

  /** Loading again, put together: it succeeds and keeps everything. */
  method Reload(sid: IdFunction, host: string, sources: set<string>, descs: seq<PipelineDesc>,
                ghost d0: seq<PipelineDesc>, ghost raw0: Manifest, ghost m: Manifest)
    returns (r: Option<Manifest>)
    requires From(sid, host, sources, d0, raw0, m) && AllPlain(m) && host != "" && descs == Describe(sid, m)
    ensures r.Some? && Kept(sid, r.value, m)
  {
    forall i | 0 <= i < |descs| ensures WellFormed(descs[i]) {
      assert m[..i] == m[..i];
      AgreeRefl(sid, m[..i]);
      PipelineReloads(sid, host, sources, d0, raw0, m, m[..i], i);
    }
    ghost var raw;
    r, raw := Load(sid, host, sources, descs);
    if r.None? {
      NeverFails(sid, host, sources, d0, raw0, m, raw);
    } else {
      RoundTrip(sid, host, sources, d0, raw0, m, raw, r.value);
    }
  }

  lemma AgreeRefl(sid: IdFunction, m: Manifest)
    ensures Agree(sid, m, m)
  {
  }
}
