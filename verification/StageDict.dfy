/**
  Handing a stage to another process as a dictionary (osbuild/pipeline.py:139-190,
  devices.py:53-76, mounts.py:50-77, inputs.py:62-88).  Devices refer to parents, and
  mounts to devices, by name only.
 */
module StageDict {
  import opened Wrappers
  import opened Dicts
  import opened ContentId
  import opened ManifestV2

  datatype DeviceData = DeviceData(name: string, info: string, parentName: Option<string>, options: Dict)

  datatype MountData = MountData(
    name: string, info: string, deviceName: Option<string>, partition: Option<int>,
    target: Option<string>, options: Dict)

  datatype StageData = StageData(
    info: string, build: Option<string>, base: Option<string>, options: Dict, epoch: Option<int>,
    inputs: map<string, Input>, devices: seq<DeviceData>, mounts: seq<MountData>)

  function DeviceToDict(d: Device): DeviceData {
    DeviceData(d.name, d.info, if d.parent.Some? then Some(d.parent.value.name) else None, d.options)
  }

  function MountToDict(m: Mount): MountData {
    MountData(
      m.name, m.info, if m.device.Some? then Some(m.device.value.name) else None, m.partition, m.target, m.options)
  }

  function ToDict(s: Stage): (d: StageData)
    ensures |d.devices| == |s.devices|
    ensures forall k :: 0 <= k < |s.devices| ==> d.devices[k] == DeviceToDict(s.devices[k])
    ensures |d.mounts| == |s.mounts| && forall k :: 0 <= k < |s.mounts| ==> d.mounts[k] == MountToDict(s.mounts[k])
  {
    StageData(s.info, s.build, s.base, s.options, s.epoch, s.inputs,
              seq(|s.devices|, k requires 0 <= k < |s.devices| => DeviceToDict(s.devices[k])),
              seq(|s.mounts|, k requires 0 <= k < |s.mounts| => MountToDict(s.mounts[k])))
  }

  // A missing or empty name means: none.
  function ByNameOf(devices: seq<Device>, name: Option<string>): Option<Device> {
    if Truthy(name) then Lookup(devices, name.value) else None
  }

  // Device `k` as built when those before it were.
  ghost predicate Restored(data: seq<DeviceData>, devices: seq<Device>, k: nat)
    requires k < |devices| <= |data|
  {
    devices[k] == Device(data[k].name, data[k].info, ByNameOf(devices[..k], data[k].parentName), data[k].options)
  }

  ghost predicate RestoredFrom(data: seq<DeviceData>, devices: seq<Device>) {
    |devices| == |data| && forall k: nat :: k < |devices| ==> Restored(data, devices, k)
  }

  function MountFrom(devices: seq<Device>, m: MountData): Mount {
    Mount(m.name, m.info, ByNameOf(devices, m.deviceName), m.partition, m.target, m.options)
  }

  ghost predicate IsFromDict(d: StageData, s: Stage) {
    && s.info == d.info && s.build == d.build && s.base == d.base
    && s.options == d.options && s.epoch == d.epoch && s.inputs == d.inputs
    && RestoredFrom(d.devices, s.devices)
    && |s.mounts| == |d.mounts| && forall k :: 0 <= k < |s.mounts| ==> s.mounts[k] == MountFrom(s.devices, d.mounts[k])
  }

  method FromDict(d: StageData) returns (s: Stage)
    ensures IsFromDict(d, s)
  {
    var devices: seq<Device> := [];
    var i := 0;
    while i < |d.devices|
      invariant 0 <= i <= |d.devices| && |devices| == i
      invariant forall k: nat :: k < i ==> Restored(d.devices, devices, k)
    {
      var data := d.devices[i];
      ghost var before := devices;
      devices := devices + [Device(data.name, data.info, ByNameOf(devices, data.parentName), data.options)];
      forall k: nat | k <= i ensures Restored(d.devices, devices, k) {
        assert devices[..k] == before[..k];
        assert before[..i] == before;
        assert k < i ==> Restored(d.devices, before, k);
      }
      i := i + 1;
    }
    var mounts: seq<Mount> := [];
    i := 0;
    while i < |d.mounts|
      invariant 0 <= i <= |d.mounts| && |mounts| == i
      invariant forall k :: 0 <= k < i ==> mounts[k] == MountFrom(devices, d.mounts[k])
    {
      mounts := mounts + [MountFrom(devices, d.mounts[i])];
      i := i + 1;
    }
    s := Stage(d.info, d.build, d.base, d.options, d.epoch, d.inputs, devices, mounts);
  }

  // Parents stand before their children, mounts use devices of the stage.
  ghost predicate ParentsFirst(devices: seq<Device>) {
    forall k :: 0 <= k < |devices| && devices[k].parent.Some? ==>
      devices[k].parent.value in devices[..k] && devices[k].parent.value.name != ""
  }

  ghost predicate Stored(s: Stage) {
    && ParentsFirst(s.devices)
    && forall k :: 0 <= k < |s.mounts| && s.mounts[k].device.Some? ==>
         s.mounts[k].device.value in s.devices && s.mounts[k].device.value.name != ""
  }

  lemma LookupFinds(devices: seq<Device>, d: Device, k: nat)
    requires DistinctDevices(devices) && k <= |devices| && d in devices[..k]
    ensures Lookup(devices[..k], d.name) == Some(d)
  {
    var i :| 0 <= i < k && devices[i] == d;
    var e := Lookup(devices[..k], d.name);
    var j :| 0 <= j < k && devices[j] == e.value;
    assert i == j;
  }

  lemma {:induction false} DevicesReturn(devices: seq<Device>, data: seq<DeviceData>, restored: seq<Device>, n: nat)
    requires DistinctDevices(devices) && ParentsFirst(devices) && RestoredFrom(data, restored)
    requires n <= |data| == |devices|
    requires forall k :: 0 <= k < |data| ==> data[k] == DeviceToDict(devices[k])
    ensures restored[..n] == devices[..n]
  {
    if n > 0 {
      DevicesReturn(devices, data, restored, n - 1);
      assert Restored(data, restored, n - 1);
      if devices[n - 1].parent.Some? {
        LookupFinds(devices, devices[n - 1].parent.value, n - 1);
      }
      assert restored[..n] == restored[..n - 1] + [restored[n - 1]];
      assert devices[..n] == devices[..n - 1] + [devices[n - 1]];
    }
  }

  /** The stage that comes back is the one handed over, exactly when its devices were
      stored parents first. */
  lemma DictRoundTrip(s: Stage, s': Stage)
    requires DistinctDevices(s.devices) && IsFromDict(ToDict(s), s')
    ensures s' == s <==> Stored(s)
  {
    var d := ToDict(s);
    if Stored(s) {
      DevicesReturn(s.devices, d.devices, s'.devices, |s.devices|);
      assert s'.devices == s.devices by {
        assert s'.devices[..|s.devices|] == s'.devices && s.devices[..|s.devices|] == s.devices;
      }
      forall k | 0 <= k < |s.mounts| ensures s'.mounts[k] == s.mounts[k] {
        MountReturns(s.devices, s.mounts[k]);
      }
      assert s'.mounts == s.mounts;
    }
    if s' == s {
      forall k | 0 <= k < |s.devices| && s.devices[k].parent.Some?
        ensures s.devices[k].parent.value in s.devices[..k] && s.devices[k].parent.value.name != ""
      {
        assert Restored(d.devices, s'.devices, k);
      }
    }
  }

  lemma MountReturns(devices: seq<Device>, m: Mount)
    requires DistinctDevices(devices) && (m.device.Some? ==> m.device.value in devices && m.device.value.name != "")
    ensures MountFrom(devices, MountToDict(m)) == m
  {
    if m.device.Some? {
      assert devices[..|devices|] == devices;
      LookupFinds(devices, m.device.value, |devices|);
    }
  }

  /** Loading stores parents first, so loaded stages come back unchanged. */
  lemma LoadedIsStored(sid: IdFunction, m: Manifest, d: StageDesc, s: Stage)
    requires StageLoaded(sid, m, d, s)
    ensures DistinctDevices(s.devices) && Stored(s)
  {
    forall k: nat | k < |s.devices| && s.devices[k].parent.Some?
      ensures s.devices[k].parent.value in s.devices[..k] && s.devices[k].parent.value.name != ""
    {
      assert FromItems(d.devices, s.devices, k);
    }
    forall k | 0 <= k < |s.mounts| && s.mounts[k].device.Some?
      ensures s.mounts[k].device.value in s.devices && s.mounts[k].device.value.name != ""
    {
      assert MountLoaded(s.devices, d.mounts[k], s.mounts[k]);
    }
  }

  /** A loaded stage that goes through a dictionary keeps its id, parents or not. */
  lemma LoadedStageKeepsId(h: string -> string, m: Manifest, d: StageDesc, s: Stage, s': Stage)
    requires StageLoaded(IdOf(h), m, d, s) && IsFromDict(ToDict(s), s')
    ensures s' == s && IdOf(h)(s') == IdOf(h)(s)
  {
    LoadedIsStored(IdOf(h), m, d, s);
    DictRoundTrip(s, s');
  }
}
