/**
  Content ids (osbuild/pipeline.py:97-111, 390-396; osbuild/inputs.py:46-60;
  osbuild/mounts.py:38-48; osbuild/devices.py:42-51): an id is the hash of the JSON
  texts of a recipe's parts, and a stage's parts name the stage below by its id.

  The hash is a parameter `h`, taken to be injective.  Names given to inputs are
  part of a stage's id, names given to devices and mounts are not.
 */
module ContentId {
  import opened Wrappers
  import opened JsonText
  import opened Dicts

  datatype Device = Device(name: string, info: string, parent: Option<Device>, options: Dict)

  datatype Mount = Mount(
    name: string, info: string, device: Option<Device>, partition: Option<int>, target: Option<string>, options: Dict)

  datatype Input = Input(name: string, info: string, origin: string, refs: Dict, options: Dict)

  // `devices` and `mounts` are dictionaries by name; the order of the mounts counts.
  datatype Stage = Stage(
    info: string, build: Option<string>, base: Option<string>, options: Dict, epoch: Option<int>,
    inputs: map<string, Input>, devices: seq<Device>, mounts: seq<Mount>)

  ghost predicate Injective(h: string -> string) {
    forall a, b :: h(a) == h(b) ==> a == b
  }

  function OrNull(s: Option<string>): Json { if s.Some? then Str(s.value) else Null }

  // ----------------------------------------------------------------------- ids

  function DevicePieces(h: string -> string, d: Device): seq<Json>
    decreases d, 0
  {
    [Str(d.info)] + (if d.parent.Some? then [Str(DeviceId(h, d.parent.value))] else []) + [Object(d.options)]
  }

  function DeviceId(h: string -> string, d: Device): string
    decreases d, 1
  {
    h(Text(DevicePieces(h, d)))
  }

  // Python treats partition 0 and an empty target like absent ones.
  predicate HasPartition(m: Mount) { m.partition.Some? && m.partition.value != 0 }
  predicate HasTarget(m: Mount) { m.target.Some? && m.target.value != "" }

  function MountPieces(h: string -> string, m: Mount): seq<Json> {
    [Str(m.info)]
    + (if m.device.Some? then [Str(DeviceId(h, m.device.value))] else [])
    + (if HasPartition(m) then [Num(m.partition.value)] else [])
    + (if HasTarget(m) then [Str(m.target.value)] else [])
    + [Object(m.options)]
  }

  function MountId(h: string -> string, m: Mount): string { h(Text(MountPieces(h, m))) }

  function InputPieces(i: Input): seq<Json> { [Str(i.info), Str(i.origin), Object(i.refs), Object(i.options)] }

  function InputId(h: string -> string, i: Input): string { h(Text(InputPieces(i))) }

  function InputIds(h: string -> string, inputs: map<string, Input>): Dict {
    map n | n in inputs :: Str(InputId(h, inputs[n]))
  }

  function MountItems(h: string -> string, mounts: seq<Mount>): (r: seq<Json>)
    ensures |r| == |mounts| && forall k :: 0 <= k < |r| ==> r[k] == Str(MountId(h, mounts[k]))
  {
    seq(|mounts|, k requires 0 <= k < |mounts| => Str(MountId(h, mounts[k])))
  }

  // The texts that are hashed: four always, the others when there is something.
  function Parts(info: string, build: Option<string>, base: Option<string>, options: Json, epoch: Option<int>,
                 inputs: Option<Json>, mounts: Option<Json>): seq<Json> {
    [Str(info), OrNull(build), OrNull(base), options] + MoreParts(epoch, inputs, mounts)
  }

  function MoreParts(epoch: Option<int>, inputs: Option<Json>, mounts: Option<Json>): seq<Json> {
    (if epoch.Some? then [Num(epoch.value)] else [])
    + (if inputs.Some? then [inputs.value] else [])
    + (if mounts.Some? then [mounts.value] else [])
  }

  function InputPart(h: string -> string, inputs: map<string, Input>): (r: Option<Json>)
    ensures r.Some? ==> r.value.Obj?
  {
    if inputs != map[] then Some(Object(InputIds(h, inputs))) else None
  }

  function MountPart(h: string -> string, mounts: seq<Mount>): (r: Option<Json>)
    ensures r.Some? ==> r.value.Arr?
  {
    if mounts != [] then Some(Arr(MountItems(h, mounts))) else None
  }

  function StagePieces(h: string -> string, s: Stage): seq<Json> {
    Parts(s.info, s.build, s.base, Object(s.options), s.epoch, InputPart(h, s.inputs), MountPart(h, s.mounts))
  }

  function StageId(h: string -> string, s: Stage): string { h(Text(StagePieces(h, s))) }

  // -------------------------------------------------------------- same recipes

  predicate SameDevice(a: Device, b: Device) {
    && a.info == b.info && a.options == b.options && a.parent.Some? == b.parent.Some?
    && (a.parent.Some? ==> SameDevice(a.parent.value, b.parent.value))
  }

  predicate SameDeviceOf(a: Mount, b: Mount) {
    a.device.Some? == b.device.Some? && (a.device.Some? ==> SameDevice(a.device.value, b.device.value))
  }

  predicate SameMount(a: Mount, b: Mount) {
    && a.info == b.info && a.options == b.options && SameDeviceOf(a, b)
    && HasPartition(a) == HasPartition(b) && (HasPartition(a) ==> a.partition == b.partition)
    && HasTarget(a) == HasTarget(b) && (HasTarget(a) ==> a.target == b.target)
  }

  // The device of `a` takes the place of the target of `b`.
  predicate Crossed(h: string -> string, a: Mount, b: Mount) {
    && a.info == b.info && a.options == b.options && !HasPartition(a) && !HasPartition(b)
    && a.device.Some? && !HasTarget(a) && b.device.None? && HasTarget(b)
    && b.target.value == DeviceId(h, a.device.value)
  }

  predicate SameInput(a: Input, b: Input) {
    a.info == b.info && a.origin == b.origin && a.refs == b.refs && a.options == b.options
  }

  predicate SameInputs(a: map<string, Input>, b: map<string, Input>) {
    a.Keys == b.Keys && forall n :: n in a ==> SameInput(a[n], b[n])
  }

  predicate SameMounts(a: seq<Mount>, b: seq<Mount>) {
    |a| == |b| && forall k :: 0 <= k < |a| ==> SameMount(a[k], b[k])
  }

  predicate SameStage(a: Stage, b: Stage) {
    && a.info == b.info && a.build == b.build && a.base == b.base && a.options == b.options && a.epoch == b.epoch
    && SameInputs(a.inputs, b.inputs) && SameMounts(a.mounts, b.mounts)
  }

  // ------------------------------------------------------------ ids are faithful

  lemma {:induction false} SameDeviceSameId(h: string -> string, a: Device, b: Device)
    requires SameDevice(a, b)
    ensures DeviceId(h, a) == DeviceId(h, b)
  {
    if a.parent.Some? {
      SameDeviceSameId(h, a.parent.value, b.parent.value);
    }
  }

  lemma SameMountSameId(h: string -> string, a: Mount, b: Mount)
    requires SameMount(a, b)
    ensures MountId(h, a) == MountId(h, b)
  {
    if a.device.Some? {
      SameDeviceSameId(h, a.device.value, b.device.value);
    }
    assert MountPieces(h, a) == MountPieces(h, b);
  }

  /** The same recipe has the same id; nothing is asked of the hash for this. */
  lemma SameStageSameId(h: string -> string, a: Stage, b: Stage)
    requires SameStage(a, b)
    ensures StageId(h, a) == StageId(h, b)
  {
    assert forall n :: n in a.inputs ==> InputId(h, a.inputs[n]) == InputId(h, b.inputs[n]);
    assert InputIds(h, a.inputs) == InputIds(h, b.inputs);
    assert a.inputs == map[] <==> b.inputs == map[] by { assert a.inputs.Keys == b.inputs.Keys; }
    forall k | 0 <= k < |a.mounts| ensures MountItems(h, a.mounts)[k] == MountItems(h, b.mounts)[k] {
      SameMountSameId(h, a.mounts[k], b.mounts[k]);
    }
    assert MountItems(h, a.mounts) == MountItems(h, b.mounts);
  }

  lemma {:induction false} DeviceIdFaithful(h: string -> string, a: Device, b: Device)
    requires Injective(h)
    ensures DeviceId(h, a) == DeviceId(h, b) <==> SameDevice(a, b)
  {
    if a.parent.Some? && b.parent.Some? {
      DeviceIdFaithful(h, a.parent.value, b.parent.value);
    }
    ObjectFaithful(a.options, b.options);
    var x, y := DevicePieces(h, a), DevicePieces(h, b);
    if DeviceId(h, a) == DeviceId(h, b) {
      TextUnique(x, y);
      assert x[0] == y[0] && x[|x| - 1] == y[|y| - 1] && x[1] == y[1];
    }
  }

  lemma MountPiecesFaithful(h: string -> string, a: Mount, b: Mount)
    requires MountPieces(h, a) == MountPieces(h, b)
    ensures a.info == b.info && a.options == b.options
    ensures HasPartition(a) == HasPartition(b) && (HasPartition(a) ==> a.partition == b.partition)
    ensures a.device.Some? == b.device.Some? ==>
      && (a.device.Some? ==> DeviceId(h, a.device.value) == DeviceId(h, b.device.value))
      && HasTarget(a) == HasTarget(b) && (HasTarget(a) ==> a.target == b.target)
    ensures a.device.Some? && b.device.None? ==> Crossed(h, a, b)
    ensures a.device.None? && b.device.Some? ==> Crossed(h, b, a)
  {
    ObjectFaithful(a.options, b.options);
    var x, y := MountPieces(h, a), MountPieces(h, b);
    assert x[0] == y[0] && x[|x| - 1] == y[|y| - 1] && x[1] == y[1];
    assert |x| > 2 ==> x[2] == y[2];
    assert |x| > 3 ==> x[3] == y[3];
  }

  lemma CrossedSameId(h: string -> string, a: Mount, b: Mount)
    requires Crossed(h, a, b)
    ensures MountId(h, a) == MountId(h, b)
  {
    assert MountPieces(h, a) == MountPieces(h, b);
  }

  lemma EqualMountPieces(h: string -> string, a: Mount, b: Mount)
    requires Injective(h) && MountPieces(h, a) == MountPieces(h, b)
    ensures SameMount(a, b) || Crossed(h, a, b) || Crossed(h, b, a)
  {
    MountPiecesFaithful(h, a, b);
    if a.device.Some? && b.device.Some? {
      DeviceIdFaithful(h, a.device.value, b.device.value);
    }
  }

  lemma EqualMountIds(h: string -> string, a: Mount, b: Mount)
    requires Injective(h) && MountId(h, a) == MountId(h, b)
    ensures SameMount(a, b) || Crossed(h, a, b) || Crossed(h, b, a)
  {
    TextUnique(MountPieces(h, a), MountPieces(h, b));
    EqualMountPieces(h, a, b);
  }

  /** Two mounts have the same id exactly when they are the same mount, or one's
      target is spelled like the id of the other's device. */
  lemma MountIdFaithful(h: string -> string, a: Mount, b: Mount)
    requires Injective(h)
    ensures MountId(h, a) == MountId(h, b) <==> SameMount(a, b) || Crossed(h, a, b) || Crossed(h, b, a)
  {
    if MountId(h, a) == MountId(h, b) {
      EqualMountIds(h, a, b);
    } else if SameMount(a, b) {
      SameMountSameId(h, a, b);
    } else if Crossed(h, a, b) {
      CrossedSameId(h, a, b);
    } else if Crossed(h, b, a) {
      CrossedSameId(h, b, a);
    }
  }

  lemma InputIdFaithful(h: string -> string, a: Input, b: Input)
    requires Injective(h)
    ensures InputId(h, a) == InputId(h, b) <==> SameInput(a, b)
  {
    ObjectFaithful(a.refs, b.refs);
    ObjectFaithful(a.options, b.options);
    var x, y := InputPieces(a), InputPieces(b);
    if InputId(h, a) == InputId(h, b) {
      TextUnique(x, y);
      assert x[0] == y[0] && x[1] == y[1] && x[2] == y[2] && x[3] == y[3];
    }
  }

  // A target that is no device id, like any path.
  ghost predicate Unhashed(h: string -> string, m: Mount) {
    HasTarget(m) ==> forall d :: m.target.value != DeviceId(h, d)
  }

  ghost predicate PlainTargets(h: string -> string, mounts: seq<Mount>) {
    forall k :: 0 <= k < |mounts| ==> Unhashed(h, mounts[k])
  }

  lemma InputIdAt(h: string -> string, a: map<string, Input>, b: map<string, Input>, n: string)
    requires Injective(h) && n in a && n in b
    ensures InputIds(h, a)[n] == InputIds(h, b)[n] <==> SameInput(a[n], b[n])
  {
    InputIdFaithful(h, a[n], b[n]);
  }

  lemma EqualInputIds(h: string -> string, a: map<string, Input>, b: map<string, Input>)
    requires Injective(h) && InputIds(h, a) == InputIds(h, b)
    ensures SameInputs(a, b)
  {
    assert InputIds(h, a).Keys == a.Keys && InputIds(h, b).Keys == b.Keys;
    forall n | n in a ensures SameInput(a[n], b[n]) {
      InputIdAt(h, a, b, n);
    }
  }

  lemma EqualDicts(x: Dict, y: Dict)
    requires x.Keys == y.Keys && forall n :: n in x ==> x[n] == y[n]
    ensures x == y
  {
  }

  lemma SameInputsSameIds(h: string -> string, a: map<string, Input>, b: map<string, Input>)
    requires Injective(h) && SameInputs(a, b)
    ensures InputIds(h, a) == InputIds(h, b)
  {
    forall n | n in a ensures InputIds(h, a)[n] == InputIds(h, b)[n] {
      InputIdAt(h, a, b, n);
    }
    EqualDicts(InputIds(h, a), InputIds(h, b));
  }

  lemma InputPartFaithful(h: string -> string, a: map<string, Input>, b: map<string, Input>)
    requires Injective(h)
    ensures InputPart(h, a) == InputPart(h, b) <==> SameInputs(a, b)
  {
    if InputIds(h, a) == InputIds(h, b) {
      EqualInputIds(h, a, b);
    }
    if SameInputs(a, b) {
      SameInputsSameIds(h, a, b);
    }
    ObjectFaithful(InputIds(h, a), InputIds(h, b));
    assert a == map[] <==> a.Keys == {};
    assert b == map[] <==> b.Keys == {};
  }

  lemma MountPartFaithful(h: string -> string, a: seq<Mount>, b: seq<Mount>)
    requires Injective(h) && PlainTargets(h, a) && PlainTargets(h, b)
    ensures MountPart(h, a) == MountPart(h, b) <==> SameMounts(a, b)
  {
    var x, y := MountItems(h, a), MountItems(h, b);
    forall k | 0 <= k < |a| && k < |b| ensures x[k] == y[k] <==> SameMount(a[k], b[k]) {
      MountIdFaithful(h, a[k], b[k]);
    }
    if SameMounts(a, b) {
      assert x == y;
    }
  }

  lemma FirstParts(info: string, build: Option<string>, base: Option<string>, options: Json, epoch: Option<int>,
                   inputs: Option<Json>, mounts: Option<Json>)
    ensures var x := Parts(info, build, base, options, epoch, inputs, mounts);
      && |x| >= 4 && x[0] == Str(info) && x[1] == OrNull(build) && x[2] == OrNull(base) && x[3] == options
      && x[4..] == MoreParts(epoch, inputs, mounts)
  {
  }

  // The parts can be told apart: an epoch is a number, the inputs an object, the
  // mounts an array.
  lemma PartsUnique(info: string, build: Option<string>, base: Option<string>, options: Json, epoch: Option<int>,
                    inputs: Option<Json>, mounts: Option<Json>,
                    info': string, build': Option<string>, base': Option<string>, options': Json, epoch': Option<int>,
                    inputs': Option<Json>, mounts': Option<Json>)
    requires options.Obj? && (inputs.Some? ==> inputs.value.Obj?) && (mounts.Some? ==> mounts.value.Arr?)
    requires options'.Obj? && (inputs'.Some? ==> inputs'.value.Obj?) && (mounts'.Some? ==> mounts'.value.Arr?)
    requires Text(Parts(info, build, base, options, epoch, inputs, mounts))
          == Text(Parts(info', build', base', options', epoch', inputs', mounts'))
    ensures info == info' && build == build' && base == base' && options == options' && epoch == epoch'
    ensures inputs == inputs' && mounts == mounts'
  {
    var x := Parts(info, build, base, options, epoch, inputs, mounts);
    var y := Parts(info', build', base', options', epoch', inputs', mounts');
    TextUnique(x, y);
    FirstParts(info, build, base, options, epoch, inputs, mounts);
    FirstParts(info', build', base', options', epoch', inputs', mounts');
    MorePartsUnique(epoch, inputs, mounts, epoch', inputs', mounts');
  }

  lemma MorePartsUnique(epoch: Option<int>, inputs: Option<Json>, mounts: Option<Json>,
                        epoch': Option<int>, inputs': Option<Json>, mounts': Option<Json>)
    requires (inputs.Some? ==> inputs.value.Obj?) && (mounts.Some? ==> mounts.value.Arr?)
    requires (inputs'.Some? ==> inputs'.value.Obj?) && (mounts'.Some? ==> mounts'.value.Arr?)
    requires MoreParts(epoch, inputs, mounts) == MoreParts(epoch', inputs', mounts')
    ensures epoch == epoch' && inputs == inputs' && mounts == mounts'
  {
    var x, y := MoreParts(epoch, inputs, mounts), MoreParts(epoch', inputs', mounts');
    assert |x| > 0 ==> x[0] == y[0];
    assert |x| > 1 ==> x[1] == y[1];
    assert |x| > 2 ==> x[2] == y[2];
  }

  /** Equal stage ids mean equal recipes, and the other way round. */
  lemma StageIdFaithful(h: string -> string, a: Stage, b: Stage)
    requires Injective(h) && PlainTargets(h, a.mounts) && PlainTargets(h, b.mounts)
    ensures StageId(h, a) == StageId(h, b) <==> SameStage(a, b)
  {
    ObjectFaithful(a.options, b.options);
    InputPartFaithful(h, a.inputs, b.inputs);
    MountPartFaithful(h, a.mounts, b.mounts);
    if StageId(h, a) == StageId(h, b) {
      PartsUnique(a.info, a.build, a.base, Object(a.options), a.epoch, InputPart(h, a.inputs), MountPart(h, a.mounts),
                  b.info, b.build, b.base, Object(b.options), b.epoch, InputPart(h, b.inputs), MountPart(h, b.mounts));
    }
  }

  // --------------------------------------------------------------------- chains

  // How stages get their ids.
  type IdFunction = Stage -> string

  function IdOf(h: string -> string): IdFunction { s => StageId(h, s) }

  function LastId(sid: IdFunction, stages: seq<Stage>): Option<string> {
    if stages == [] then None else Some(sid(stages[|stages| - 1]))
  }

  // Every stage is based on the id of the one before it.
  ghost predicate Linked(sid: IdFunction, stages: seq<Stage>) {
    forall i :: 0 <= i < |stages| ==> LinkedAt(sid, stages, i)
  }

  ghost predicate LinkedAt(sid: IdFunction, stages: seq<Stage>, i: int)
    requires 0 <= i < |stages|
  {
    stages[i].base == LastId(sid, stages[..i])
  }

  ghost predicate PlainChain(h: string -> string, stages: seq<Stage>) {
    forall i :: 0 <= i < |stages| ==> PlainTargets(h, stages[i].mounts)
  }

  // `sid` tells the stages in `plain` apart, and no more than that.
  ghost predicate Faithful(sid: IdFunction, plain: iset<Stage>) {
    forall s, t :: s in plain && t in plain ==> (sid(s) == sid(t) <==> SameStage(s, t))
  }

  ghost predicate Inside(stages: seq<Stage>, plain: iset<Stage>) {
    forall i :: 0 <= i < |stages| ==> stages[i] in plain
  }

  lemma {:induction false} ChainFaithfulFor(sid: IdFunction, plain: iset<Stage>, a: seq<Stage>, b: seq<Stage>)
    requires Faithful(sid, plain) && Linked(sid, a) && Linked(sid, b) && Inside(a, plain) && Inside(b, plain)
    ensures LastId(sid, a) == LastId(sid, b) <==> SameStages(a, b)
  {
    if a != [] && b != [] {
      var n, m := |a| - 1, |b| - 1;
      LinkedPrefix(sid, a);
      LinkedPrefix(sid, b);
      ChainFaithfulFor(sid, plain, a[..n], b[..m]);
      SameSplit(a, b);
    }
  }

  lemma Prefix(sid: IdFunction, a: seq<Stage>, k: nat)
    requires Linked(sid, a) && k <= |a|
    ensures Linked(sid, a[..k])
  {
    forall m | 0 <= m < k ensures LinkedAt(sid, a[..k], m) {
      assert LinkedAt(sid, a, m);
      assert a[..k][..m] == a[..m];
    }
  }

  lemma DistinctFor(sid: IdFunction, plain: iset<Stage>, a: seq<Stage>, i: nat, j: nat)
    requires Faithful(sid, plain) && Linked(sid, a) && Inside(a, plain) && i < j < |a|
    ensures sid(a[i]) != sid(a[j])
  {
    Prefix(sid, a, i + 1);
    Prefix(sid, a, j + 1);
    ChainFaithfulFor(sid, plain, a[..i + 1], a[..j + 1]);
  }

  ghost function Plain(h: string -> string): iset<Stage> { iset s: Stage | PlainTargets(h, s.mounts) }

  lemma FaithfulIds(h: string -> string)
    requires Injective(h)
    ensures Faithful(IdOf(h), Plain(h))
  {
    forall s, t | s in Plain(h) && t in Plain(h) ensures IdOf(h)(s) == IdOf(h)(t) <==> SameStage(s, t) {
      StageIdFaithful(h, s, t);
    }
  }

  /** The id of a pipeline stands for its whole recipe: equal ids mean the same
      number of stages, each with the same recipe. */
  lemma ChainFaithful(h: string -> string, a: seq<Stage>, b: seq<Stage>)
    requires Injective(h) && Linked(IdOf(h), a) && Linked(IdOf(h), b) && PlainChain(h, a) && PlainChain(h, b)
    ensures LastId(IdOf(h), a) == LastId(IdOf(h), b) <==> SameStages(a, b)
  {
    FaithfulIds(h);
    ChainFaithfulFor(IdOf(h), Plain(h), a, b);
  }

  /** No two stages of a pipeline have the same id. */
  lemma IdsDistinct(h: string -> string, a: seq<Stage>, i: nat, j: nat)
    requires Injective(h) && Linked(IdOf(h), a) && PlainChain(h, a) && i < j < |a|
    ensures IdOf(h)(a[i]) != IdOf(h)(a[j])
  {
    FaithfulIds(h);
    DistinctFor(IdOf(h), Plain(h), a, i, j);
  }

  ghost predicate SameStages(a: seq<Stage>, b: seq<Stage>) {
    |a| == |b| && forall i :: 0 <= i < |a| ==> SameStage(a[i], b[i])
  }

  lemma SameSplit(a: seq<Stage>, b: seq<Stage>)
    requires a != [] && b != []
    ensures SameStages(a, b) <==> SameStages(a[..|a| - 1], b[..|b| - 1]) && SameStage(a[|a| - 1], b[|b| - 1])
  {
    if SameStages(a[..|a| - 1], b[..|b| - 1]) && SameStage(a[|a| - 1], b[|b| - 1]) {
      forall i | 0 <= i < |a| ensures SameStage(a[i], b[i]) {
        assert i < |a| - 1 ==> SameStage(a[..|a| - 1][i], b[..|b| - 1][i]);
      }
    }
  }

  lemma LinkedPrefix(sid: IdFunction, a: seq<Stage>)
    requires Linked(sid, a) && a != []
    ensures Linked(sid, a[..|a| - 1]) && a[|a| - 1].base == LastId(sid, a[..|a| - 1])
  {
    var n := |a| - 1;
    assert LinkedAt(sid, a, n);
    forall i | 0 <= i < n ensures LinkedAt(sid, a[..n], i) {
      assert LinkedAt(sid, a, i);
      assert a[..n][..i] == a[..i];
    }
  }

  // ------------------------------------------------------- growing a pipeline

  /** Amending a stage keeps the links exactly when it is the last one, or the
      amendment leaves its id alone. */
  lemma AmendKeepsLinks(sid: IdFunction, stages: seq<Stage>, i: nat, s: Stage)
    requires Linked(sid, stages) && i < |stages| && s.base == stages[i].base
    ensures Linked(sid, stages[i := s]) <==> i == |stages| - 1 || sid(s) == sid(stages[i])
  {
    var amended := stages[i := s];
    forall j | 0 <= j < |amended|
      ensures LinkedAt(sid, amended, j) <==> j != i + 1 || sid(s) == sid(stages[i])
    {
      assert LinkedAt(sid, stages, j);
      LastAmended(sid, stages, i, s, j);
    }
    if i + 1 < |stages| {
      assert Linked(sid, amended) ==> LinkedAt(sid, amended, i + 1);
    }
  }

  lemma LastAmended(sid: IdFunction, stages: seq<Stage>, i: nat, s: Stage, j: nat)
    requires i < |stages| && j <= |stages|
    ensures LastId(sid, stages[i := s][..j]) == if j == i + 1 then Some(sid(s)) else LastId(sid, stages[..j])
  {
    assert j > 0 ==> stages[i := s][..j][j - 1] == (if j == i + 1 then s else stages[..j][j - 1]);
  }

  class Pipeline {
    const h: string -> string
    const build: Option<string>
    const epoch: Option<int>
    var stages: seq<Stage>

    ghost predicate Valid()
      reads this
    {
      && Linked(IdOf(h), stages)
      && forall i :: 0 <= i < |stages| ==> stages[i].build == build && stages[i].epoch == epoch
    }

    function Id(): Option<string>
      reads this
    {
      LastId(IdOf(h), stages)
    }

    constructor (h: string -> string, build: Option<string>, epoch: Option<int>)
      ensures this.h == h && this.build == build && this.epoch == epoch
      ensures stages == [] && Valid()
    {
      this.h, this.build, this.epoch := h, build, epoch;
      stages := [];
    }

    method AddStage(info: string, options: Dict)
      requires Valid()
      modifies this
      ensures Valid()
      ensures stages == old(stages) + [Stage(info, build, old(Id()), options, epoch, map[], [], [])]
    {
      ghost var before := stages;
      stages := stages + [Stage(info, build, Id(), options, epoch, map[], [], [])];
      forall i | 0 <= i < |stages| ensures LinkedAt(IdOf(h), stages, i) {
        assert i < |before| ==> LinkedAt(IdOf(h), before, i);
        assert stages[..i] == before[..i];
      }
    }

    // Inputs, devices and mounts are added while the stage is the last one.
    method AmendLast(inputs: map<string, Input>, devices: seq<Device>, mounts: seq<Mount>)
      requires Valid() && stages != []
      modifies this
      ensures Valid()
      ensures stages == old(stages)[..|old(stages)| - 1] +
        [old(stages)[|old(stages)| - 1].(inputs := inputs, devices := devices, mounts := mounts)]
    {
      var n := |stages| - 1;
      var s := stages[n].(inputs := inputs, devices := devices, mounts := mounts);
      AmendKeepsLinks(IdOf(h), stages, n, s);
      stages := stages[n := s];
    }
  }
}
