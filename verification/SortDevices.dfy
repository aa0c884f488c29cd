/**
  `sort_devices` (osbuild/formats/v2.py:186-225): parents first, by repeated passes
  over the names that are left.
 */
module SortDevices {
  import opened Wrappers
  import opened Dicts

  // The description of a device.
  datatype Desc = Desc(info: string, parent: Option<string>, options: Dict)

  // An item of the dictionary.
  datatype Item = Item(name: string, desc: Desc)

  datatype Error = MissingParent | Cycle

  // An empty parent counts as none.
  predicate HasParent(d: Item) { d.desc.parent.Some? && d.desc.parent.value != "" }

  predicate IsKey(devices: seq<Item>, name: string) {
    exists i :: 0 <= i < |devices| && devices[i].name == name
  }

  predicate DistinctNames(devices: seq<Item>) {
    forall i, j :: 0 <= i < j < |devices| ==> devices[i].name != devices[j].name
  }

  function Find(devices: seq<Item>, name: string): (d: Item)
    requires IsKey(devices, name)
    ensures d in devices && d.name == name
  {
    if devices[0].name == name then devices[0]
    else
      assert IsKey(devices[1..], name) by {
        var i :| 0 <= i < |devices| && devices[i].name == name;
        assert devices[1..][i - 1] == devices[i];
      }
      Find(devices[1..], name)
  }

  // ---------------------------------------------------------------- what it does

  ghost predicate Known(devices: seq<Item>, d: Item) {
    HasParent(d) ==> IsKey(devices, d.desc.parent.value)
  }

  ghost predicate AllKnown(devices: seq<Item>) {
    forall d :: d in devices ==> Known(devices, d)
  }

  // Following parents `k` times from `name` meets a device that has one each time.
  ghost predicate Climbs(devices: seq<Item>, name: string, k: nat)
    decreases k
  {
    k > 0 ==>
      && IsKey(devices, name) && HasParent(Find(devices, name))
      && Climbs(devices, Find(devices, name).desc.parent.value, k - 1)
  }

  ghost predicate NeverEnds(devices: seq<Item>, name: string) {
    forall k: nat :: Climbs(devices, name, k)
  }

  ghost predicate ParentsFirst(result: seq<Item>) {
    forall i :: 0 <= i < |result| && HasParent(result[i]) ==> IsKey(result[..i], result[i].desc.parent.value)
  }

  // Unchanged devices, each at most once, parents first.
  ghost predicate Ordered(devices: seq<Item>, result: seq<Item>) {
    && (forall i :: 0 <= i < |result| ==> result[i] in devices)
    && DistinctNames(result) && ParentsFirst(result)
  }

  lemma {:induction false} ClimbsInside(devices: seq<Item>, inside: set<string>, name: string, k: nat)
    requires forall n :: n in inside ==>
      IsKey(devices, n) && HasParent(Find(devices, n)) && Find(devices, n).desc.parent.value in inside
    requires name in inside
    ensures Climbs(devices, name, k)
    decreases k
  {
    if k > 0 {
      ClimbsInside(devices, inside, Find(devices, name).desc.parent.value, k - 1);
    }
  }

  lemma FindUnique(devices: seq<Item>, d: Item)
    requires DistinctNames(devices) && d in devices
    ensures IsKey(devices, d.name) && Find(devices, d.name) == d
  {
    var i :| 0 <= i < |devices| && devices[i] == d;
    assert IsKey(devices, d.name);
    var e := Find(devices, d.name);
    var j :| 0 <= j < |devices| && devices[j] == e;
    if i < j {
      assert devices[i].name != devices[j].name;
    }
  }

  // Everything placed is within finitely many steps of a root.
  lemma {:induction false} PlacedEnds(devices: seq<Item>, result: seq<Item>, i: nat) returns (k: nat)
    requires DistinctNames(devices) && Ordered(devices, result) && i < |result|
    ensures !Climbs(devices, result[i].name, k)
  {
    FindUnique(devices, result[i]);
    if !HasParent(result[i]) {
      k := 1;
    } else {
      var parent := result[i].desc.parent.value;
      assert IsKey(result[..i], parent);
      var j :| 0 <= j < i && result[..i][j].name == parent;
      var m := PlacedEnds(devices, result, j);
      k := m + 1;
    }
  }

  // ------------------------------------------------------------------ the passes

  predicate Truthy(n: Option<string>) { n.Some? && n.value != "" }

  // `list(filter(bool, todo))`
  function Keep(todo: seq<Option<string>>): (r: seq<Option<string>>)
    ensures |r| <= |todo|
    ensures forall n :: n in r <==> n in todo && Truthy(n)
    ensures |r| == |todo| ==> r == todo
  {
    if todo == [] then [] else (if Truthy(todo[0]) then [todo[0]] else []) + Keep(todo[1..])
  }

  ghost predicate Distinct(todo: seq<Option<string>>) {
    forall i, j :: 0 <= i < j < |todo| && todo[i].Some? ==> todo[i] != todo[j]
  }

  lemma {:induction false} KeepDistinct(todo: seq<Option<string>>)
    requires Distinct(todo)
    ensures Distinct(Keep(todo))
  {
    if todo != [] {
      KeepDistinct(todo[1..]);
      assert todo[0] in todo[1..] ==> !Truthy(todo[0]);
    }
  }

  // Every name is placed, or still to do; the empty name may get lost.
  ghost predicate PassInv(devices: seq<Item>, todo: seq<Option<string>>, result: seq<Item>) {
    && Ordered(devices, result) && Distinct(todo)
    && (forall n :: Some(n) in todo ==> IsKey(devices, n) && !IsKey(result, n))
    && (forall d :: d in devices && d.name != "" ==> Some(d.name) in todo || IsKey(result, d.name))
  }

  lemma PlaceKeeps(devices: seq<Item>, todo: seq<Option<string>>, result: seq<Item>, i: nat, d: Item)
    requires PassInv(devices, todo, result) && i < |todo| && todo[i] == Some(d.name) && d in devices
    requires HasParent(d) ==> IsKey(result, d.desc.parent.value)
    ensures PassInv(devices, todo[i := None], result + [d])
  {
    var r, t := result + [d], todo[i := None];
    assert todo[i] in todo;
    assert forall j :: 0 <= j < |result| ==> r[j] == result[j] && r[..j] == result[..j];
    assert r[..|result|] == result;
    forall n ensures IsKey(r, n) <==> IsKey(result, n) || n == d.name {
      assert r[|result|] == d;
      if j :| 0 <= j < |result| && result[j].name == n {
        assert r[j].name == n;
      }
    }
    assert DistinctNames(r) by {
      assert !IsKey(result, d.name);
    }
    forall n | Some(n) in t ensures Some(n) in todo && n != d.name {
      var j :| 0 <= j < |t| && t[j] == Some(n);
      assert j != i && todo[j] == Some(n);
    }
    forall e | e in devices && e.name != "" && Some(e.name) in todo && e.name != d.name ensures Some(e.name) in t {
      var j :| 0 <= j < |todo| && todo[j] == Some(e.name);
      assert t[j] == todo[j];
    }
  }

  // The names of a dictionary, in order.
  function Keys(devices: seq<Item>): (r: seq<Option<string>>)
    ensures |r| == |devices| && forall i :: 0 <= i < |r| ==> r[i] == Some(devices[i].name)
  {
    seq(|devices|, i requires 0 <= i < |devices| => Some(devices[i].name))
  }

  // The first `i` names of this pass have known parents.
  ghost predicate Examined(devices: seq<Item>, before: seq<Option<string>>, i: int) {
    forall k :: 0 <= k < i && k < |before| && before[k].Some? && IsKey(devices, before[k].value) ==>
      Known(devices, Find(devices, before[k].value))
  }

  // The name at `k` waits for another one that is still to do.
  ghost predicate Waits(devices: seq<Item>, todo: seq<Option<string>>, k: int)
    requires 0 <= k < |todo|
  {
    && todo[k].Some? && IsKey(devices, todo[k].value)
    && HasParent(Find(devices, todo[k].value)) && Find(devices, todo[k].value).desc.parent in todo
  }

  ghost predicate Waiting(devices: seq<Item>, todo: seq<Option<string>>, i: int) {
    forall k :: 0 <= k < i && k < |todo| ==> Waits(devices, todo, k)
  }

  // In the first pass the device at `j` is placed when its chain of parents leads back
  // to earlier and earlier positions.
  ghost predicate Early(devices: seq<Item>, j: nat)
    requires j < |devices|
    decreases j
  {
    HasParent(devices[j]) ==>
      exists k :: 0 <= k < j && devices[k].name == devices[j].desc.parent.value && Early(devices, k)
  }

  // The first `i` visits of the first pass placed exactly those.
  ghost predicate FirstVisits(devices: seq<Item>, result: seq<Item>, i: int) {
    forall j :: 0 <= j < |devices| ==> (IsKey(result, devices[j].name) <==> j < i && Early(devices, j))
  }

  // What a visit of `d` makes of the result.
  function Placed(result: seq<Item>, d: Item): seq<Item> {
    if HasParent(d) && !IsKey(result, d.desc.parent.value) then result else result + [d]
  }

  lemma KeysOfPlaced(result: seq<Item>, d: Item, n: string)
    ensures IsKey(Placed(result, d), n) <==> IsKey(result, n) || (n == d.name && Placed(result, d) != result)
  {
    var r := Placed(result, d);
    if r != result {
      assert r[|result|] == d;
      if j :| 0 <= j < |result| && result[j].name == n {
        assert r[j].name == n;
      }
    }
  }

  lemma FirstVisit(devices: seq<Item>, result: seq<Item>, i: nat)
    requires DistinctNames(devices) && FirstVisits(devices, result, i) && i < |devices|
    requires forall d :: d in result ==> d in devices
    ensures FirstVisits(devices, Placed(result, devices[i]), i + 1)
  {
    var d := devices[i];
    if HasParent(d) && IsKey(result, d.desc.parent.value) {
      var k :| 0 <= k < |result| && result[k].name == d.desc.parent.value;
      assert result[k] in result;
      var j :| 0 <= j < |devices| && devices[j] == result[k];
      assert IsKey(result, devices[j].name);
    }
    assert Early(devices, i) <==> Placed(result, d) != result;
    forall j | 0 <= j < |devices|
      ensures IsKey(Placed(result, d), devices[j].name) <==> j < i + 1 && Early(devices, j)
    {
      KeysOfPlaced(result, d, devices[j].name);
    }
  }

  // Look at the name at position `i`: place it, or leave it for the next pass.
  method Visit(devices: seq<Item>, todo: seq<Option<string>>, result: seq<Item>, i: nat)
    returns (missing: bool, todo': seq<Option<string>>, result': seq<Item>)
    requires DistinctNames(devices) && PassInv(devices, todo, result) && i < |todo| && todo[i].Some?
    requires IsKey(devices, todo[i].value)
    ensures missing ==> !AllKnown(devices)
    ensures !missing ==> PassInv(devices, todo', result') && Known(devices, Find(devices, todo[i].value))
    ensures !missing ==> todo' == todo[i := None] || (todo' == todo && result' == result && Waits(devices, todo, i))
    ensures !missing ==> result' == Placed(result, Find(devices, todo[i].value))
  {
    missing, todo', result' := false, todo, result;
    var d := Find(devices, todo[i].value);
    if HasParent(d) && !IsKey(result, d.desc.parent.value) {
      if d.desc.parent !in todo {
        ParentMissing(devices, todo, result, d);
        missing := true;
      }
      return;
    }
    if HasParent(d) {
      KeyOfPlaced(devices, result, d.desc.parent.value);
    }
    PlaceKeeps(devices, todo, result, i, d);
    result' := result + [d];
    todo' := todo[i := None];
  }

  // After looking at the first `i` names; `hole` is a position set to None, if any was.
  ghost predicate PassSoFar(devices: seq<Item>, before: seq<Option<string>>, placed: seq<Item>,
                            todo: seq<Option<string>>, result: seq<Item>, i: nat, hole: Option<nat>) {
    && i <= |todo| == |before| && Examined(devices, before, i)
    && (forall k :: 0 <= k < |todo| ==> todo[k] == before[k] || (k < i && todo[k].None?))
    && (if hole.Some? then hole.value < |todo| && todo[hole.value].None?
        else todo == before && result == placed && Waiting(devices, before, i))
  }

  lemma NextName(devices: seq<Item>, before: seq<Option<string>>, placed: seq<Item>,
                 todo: seq<Option<string>>, result: seq<Item>, i: nat, hole: Option<nat>,
                 todo': seq<Option<string>>, result': seq<Item>) returns (hole': Option<nat>)
    requires PassSoFar(devices, before, placed, todo, result, i, hole) && i < |todo| && todo[i] == before[i]
    requires before[i].Some?
    requires IsKey(devices, before[i].value) && Known(devices, Find(devices, before[i].value))
    requires todo' == todo[i := None] || (todo' == todo && result' == result && Waits(devices, todo, i))
    ensures PassSoFar(devices, before, placed, todo', result', i + 1, hole')
  {
    hole' := if hole.None? && todo'[i].None? then Some(i) else hole;
  }

  // One `for` loop over `todo`.
  method Pass(devices: seq<Item>, before: seq<Option<string>>, placed: seq<Item>)
    returns (missing: bool, todo: seq<Option<string>>, result: seq<Item>)
    requires DistinctNames(devices) && PassInv(devices, before, placed)
    requires forall k :: 0 <= k < |before| ==> before[k].Some? && IsKey(devices, before[k].value)
    ensures missing ==> !AllKnown(devices)
    ensures !missing ==> PassInv(devices, todo, result) && |todo| == |before| && Examined(devices, before, |before|)
    ensures !missing ==> forall k :: 0 <= k < |todo| ==> todo[k] == before[k] || todo[k].None?
    ensures !missing && todo == before ==> result == placed && Waiting(devices, before, |before|)
    ensures !missing && before == Keys(devices) && placed == [] ==> FirstVisits(devices, result, |devices|)
    ensures !missing && Some("") !in before ==> (IsKey(result, "") <==> IsKey(placed, ""))
  {
    todo, result, missing := before, placed, false;
    ghost var hole: Option<nat> := None;
    var i := 0;
    while i < |todo|
      invariant PassInv(devices, todo, result) && PassSoFar(devices, before, placed, todo, result, i, hole)
      invariant before == Keys(devices) && placed == [] ==> FirstVisits(devices, result, i)
      invariant Some("") !in before ==> (IsKey(result, "") <==> IsKey(placed, ""))
      decreases |before| - i
    {
      var todo', result';
      missing, todo', result' := Visit(devices, todo, result, i);
      if missing {
        return;
      }
      ghost var d := Find(devices, before[i].value);
      KeysOfPlaced(result, d, "");
      if before == Keys(devices) && placed == [] {
        FindUnique(devices, devices[i]);
        FirstVisit(devices, result, i);
      }
      hole := NextName(devices, before, placed, todo, result, i, hole, todo', result');
      todo, result, i := todo', result', i + 1;
    }
  }

  lemma ParentMissing(devices: seq<Item>, todo: seq<Option<string>>, result: seq<Item>, d: Item)
    requires PassInv(devices, todo, result) && d in devices && HasParent(d)
    requires !IsKey(result, d.desc.parent.value) && d.desc.parent !in todo
    ensures !AllKnown(devices)
  {
    var parent := d.desc.parent.value;
    assert IsKey(devices, parent) ==> exists e :: e in devices && e.name == parent;
    assert !Known(devices, d);
  }

  lemma KeyOfPlaced(devices: seq<Item>, result: seq<Item>, name: string)
    requires IsKey(result, name) && forall i :: 0 <= i < |result| ==> result[i] in devices
    ensures IsKey(devices, name)
  {
    var i :| 0 <= i < |result| && result[i].name == name;
    var j :| 0 <= j < |devices| && devices[j] == result[i];
  }

  /** For every dictionary of devices the passes come to an end: with "missing
      parent" exactly when some parent is no key; otherwise with "cycle" exactly when
      some chain of parents never ends; otherwise with the devices unchanged, each
      once, parents first -- but for a device named "", which gets lost exactly when the
      first pass does not place it. */
  method Sort(devices: seq<Item>) returns (r: Result<seq<Item>, Error>)
    requires DistinctNames(devices)
    ensures r == Failure(MissingParent) <==> !AllKnown(devices)
    ensures r == Failure(Cycle) <==> AllKnown(devices) && exists d :: d in devices && NeverEnds(devices, d.name)
    ensures r.Success? <==> AllKnown(devices) && forall d :: d in devices ==> !NeverEnds(devices, d.name)
    ensures r.Success? ==> Ordered(devices, r.value)
    ensures r.Success? ==> forall d :: d in devices && d.name != "" ==> d in r.value
    ensures r.Success? ==>
      forall j :: 0 <= j < |devices| ==> (devices[j] in r.value <==> devices[j].name != "" || Early(devices, j))
  {
    var result: seq<Item> := [];
    var todo := Keys(devices);
    ghost var first := true;
    StartInv(devices);
    while todo != []
      invariant Between(devices, todo, result, first)
      decreases |todo|
    {
      var before := todo;
      assert forall k :: 0 <= k < |before| ==> before[k] in before;
      var missing;
      missing, todo, result := Pass(devices, before, result);
      if missing {
        return Failure(MissingParent);
      }
      AfterPass(devices, before, todo, result, first);
      first := false;
      ghost var swept := todo;
      todo := Keep(todo);
      if |todo| == |before| {
        StuckForever(devices, before, result);
        return Failure(Cycle);
      }
    }
    AllPlaced(devices, result);
    EmptyInResult(devices, result);
    r := Success(result);
  }

  // Between two passes; before the first one nothing has been examined.
  ghost predicate Between(devices: seq<Item>, todo: seq<Option<string>>, result: seq<Item>, first: bool) {
    && PassInv(devices, todo, result) && (forall k :: 0 <= k < |todo| ==> todo[k].Some?)
    && if first then todo == Keys(devices) && result == []
       else AllKnown(devices) && Some("") !in todo && EmptyName(devices, result)
  }

  lemma AfterPass(devices: seq<Item>, before: seq<Option<string>>, todo: seq<Option<string>>, result: seq<Item>,
                  first: bool)
    requires DistinctNames(devices) && PassInv(devices, todo, result) && |todo| == |before|
    requires forall k :: 0 <= k < |before| ==> before[k].Some? && (todo[k] == before[k] || todo[k].None?)
    requires
      if first then
        before == Keys(devices) && Examined(devices, before, |before|) && FirstVisits(devices, result, |devices|)
             else AllKnown(devices) && EmptyName(devices, result)
    ensures Between(devices, Keep(todo), result, false)
    ensures |Keep(todo)| == |before| ==> todo == before
  {
    if first {
      AllExamined(devices);
      EmptyAfterFirst(devices, result);
    }
    KeepDistinct(todo);
    var kept := Keep(todo);
    forall k | 0 <= k < |kept| ensures kept[k].Some? {
      assert kept[k] in kept;
    }
    if |kept| == |before| {
      assert todo == before by {
        assert forall k :: 0 <= k < |todo| ==> kept[k].Some?;
      }
    }
  }

  // A device named "" is placed exactly when the first pass did.
  ghost predicate EmptyName(devices: seq<Item>, result: seq<Item>) {
    forall j :: 0 <= j < |devices| && devices[j].name == "" ==> (IsKey(result, "") <==> Early(devices, j))
  }

  lemma EmptyAfterFirst(devices: seq<Item>, result: seq<Item>)
    requires FirstVisits(devices, result, |devices|)
    ensures EmptyName(devices, result)
  {
  }

  lemma EmptyInResult(devices: seq<Item>, result: seq<Item>)
    requires DistinctNames(devices) && EmptyName(devices, result)
    requires forall i :: 0 <= i < |result| ==> result[i] in devices
    requires forall d :: d in devices && d.name != "" ==> d in result
    ensures forall j :: 0 <= j < |devices| ==> (devices[j] in result <==> devices[j].name != "" || Early(devices, j))
  {
    forall j | 0 <= j < |devices| && devices[j].name == "" ensures devices[j] in result <==> IsKey(result, "") {
      if i :| 0 <= i < |result| && result[i].name == "" {
        FindUnique(devices, devices[j]);
        FindUnique(devices, result[i]);
      }
    }
  }

  lemma EmptyNameSorts(devices: seq<Item>, child: Item, parent: Item)
    requires devices == [child, parent] && child.name == "" && parent.name == "a"
    requires child.desc.parent == Some("a") && parent.desc.parent == None
    ensures AllKnown(devices) && (forall d :: d in devices ==> !NeverEnds(devices, d.name)) && !Early(devices, 0)
  {
    assert devices[0] == child && devices[1] == parent;
    assert DistinctNames(devices);
    FindUnique(devices, child);
    FindUnique(devices, parent);
    assert !Climbs(devices, "a", 1) && !Climbs(devices, "", 2);
    assert AllKnown(devices) by {
      assert Known(devices, child) && Known(devices, parent);
    }
  }

  /** A device the schema allows, lost although its parent is there. */
  method EmptyNameCanGetLost() returns (r: Result<seq<Item>, Error>)
    ensures var child, parent := Item("", Desc("i", Some("a"), map[])), Item("a", Desc("i", None, map[]));
      r.Success? && child !in r.value && parent in r.value
  {
    var child := Item("", Desc("i", Some("a"), map[]));
    var parent := Item("a", Desc("i", None, map[]));
    var devices := [child, parent];
    EmptyNameSorts(devices, child, parent);
    r := Sort(devices);
    assert child == devices[0] && parent == devices[1];
    assert devices[0] !in r.value && devices[1] in r.value;
  }

  lemma StartInv(devices: seq<Item>)
    requires DistinctNames(devices)
    ensures PassInv(devices, Keys(devices), [])
  {
    forall d | d in devices ensures Some(d.name) in Keys(devices) {
      var i :| 0 <= i < |devices| && devices[i] == d;
      assert Keys(devices)[i] == Some(d.name);
    }
  }

  lemma AllExamined(devices: seq<Item>)
    requires DistinctNames(devices) && Examined(devices, Keys(devices), |devices|)
    ensures AllKnown(devices)
  {
    forall d | d in devices ensures Known(devices, d) {
      var i :| 0 <= i < |devices| && devices[i] == d;
      FindUnique(devices, d);
      assert Keys(devices)[i].Some?;
    }
  }

  lemma StuckForever(devices: seq<Item>, todo: seq<Option<string>>, result: seq<Item>)
    requires todo != [] && PassInv(devices, todo, result) && Waiting(devices, todo, |todo|)
    requires forall k :: 0 <= k < |todo| ==> todo[k].Some?
    ensures exists d :: d in devices && NeverEnds(devices, d.name)
  {
    var inside := set k | 0 <= k < |todo| :: todo[k].value;
    forall n | n in inside
      ensures IsKey(devices, n) && HasParent(Find(devices, n)) && Find(devices, n).desc.parent.value in inside
    {
      var k :| 0 <= k < |todo| && todo[k].value == n;
      assert Waits(devices, todo, k);
      var j :| 0 <= j < |todo| && todo[j] == Find(devices, n).desc.parent;
    }
    var name := todo[0].value;
    assert todo[0] in todo && name in inside;
    forall k: nat ensures Climbs(devices, name, k) {
      ClimbsInside(devices, inside, name, k);
    }
    var d := Find(devices, name);
    assert d in devices && NeverEnds(devices, d.name);
  }

  lemma AllPlaced(devices: seq<Item>, result: seq<Item>)
    requires DistinctNames(devices) && PassInv(devices, [], result) && AllKnown(devices)
    ensures forall d :: d in devices && d.name != "" ==> d in result
    ensures forall d :: d in devices ==> !NeverEnds(devices, d.name)
  {
    forall d | d in devices && d.name != "" ensures d in result && !NeverEnds(devices, d.name) {
      var _ := PlacedDevice(devices, result, d);
    }
    forall d | d in devices ensures !NeverEnds(devices, d.name) {
      FindUnique(devices, d);
      if HasParent(d) {
        var e := Find(devices, d.desc.parent.value);
        var i := PlacedDevice(devices, result, e);
        var k := PlacedEnds(devices, result, i);
        assert !Climbs(devices, d.name, k + 1);
      } else {
        assert !Climbs(devices, d.name, 1);
      }
    }
  }

  lemma PlacedDevice(devices: seq<Item>, result: seq<Item>, d: Item) returns (i: nat)
    requires DistinctNames(devices) && PassInv(devices, [], result) && d in devices && d.name != ""
    ensures i < |result| && result[i] == d
    ensures !NeverEnds(devices, d.name)
  {
    assert IsKey(result, d.name);
    var j: nat :| j < |result| && result[j].name == d.name;
    i := j;
    FindUnique(devices, d);
    FindUnique(devices, result[i]);
    var k := PlacedEnds(devices, result, i);
    assert !Climbs(devices, d.name, k);
  }
}
