/**
  The resumable builder (osbuild/pipeline.py:398-503) over the object store
  (osbuild/objectstore.py:35-457).

  Other processes share the cache: each access first takes over what they did to it,
  the next element of `script`.  They may add and evict anything, as long as an entry
  holds the tree of its id.  A commit for which the cache is too full evicts entries as
  well (osbuild/util/fscache.py:961-966); which ones depends on when they were used and
  on who holds them, and is the next element of `purges`.
 */
module Builder {
  import opened Wrappers
  import opened Manifests
  import opened Trees

  datatype Mode = READ | WRITE

  class Object {
    var mode: Mode
    const id: string
    var tree: Tree

    constructor (id: string, mode: Mode, tree: Tree)
      ensures this.id == id && this.mode == mode && this.tree == tree
    {
      this.id, this.mode, this.tree := id, mode, tree;
    }

    // Copy the base; only an object open for writing can be initialised.
    method Init(base: Object)
      requires mode.WRITE?
      modifies this`tree
      ensures tree == base.tree
    {
      tree := base.tree;
    }

    method Finalize()
      modifies this`mode
      ensures mode == READ
    {
      mode := READ;
    }
  }

  ghost predicate Honest(D: Denotation, entries: map<string, Tree>) {
    forall id :: id in entries ==> entries[id] == D(id)
  }

  ghost predicate HonestScript(D: Denotation, script: seq<Change>) {
    forall i :: 0 <= i < |script| ==> Honest(D, script[i].added)
  }

  // What other processes do between two accesses: evict entries, then add some.
  // `others` is what they have accounted in the size of the cache afterwards.
  datatype Change = Change(evicted: set<string>, added: map<string, Tree>, others: nat)

  function After(entries: map<string, Tree>, c: Change): map<string, Tree> {
    (entries - c.evicted) + c.added
  }

  // The ids a script evicts at any time.
  ghost function Evictions(script: seq<Change>): set<string> {
    if script == [] then {} else script[0].evicted + Evictions(script[1..])
  }

  ghost function Union(sets: seq<set<string>>): set<string> {
    if sets == [] then {} else sets[0] + Union(sets[1..])
  }

  // The cache on disk; `mine` and `others` make up the size it accounts.
  datatype Cache = Cache(
    entries: map<string, Tree>, mine: nat, others: nat, script: seq<Change>, purges: seq<set<string>>)
  {
    // At the next access; the last change is made again and again.
    function Next(): Cache {
      if script == [] then this
      else this.(
        entries := After(entries, script[0]), others := script[0].others,
        script := if |script| == 1 then script else script[1..])
    }

    // `n` more exceed the limit, though not by themselves.
    predicate Crowded(limit: int, n: nat) { n <= limit < others + mine + n }

    predicate Fits(limit: int, n: int) { limit < 0 || others + mine + n <= limit }

    // However much the others account, `n` more fit.
    ghost predicate RoomFor(limit: int, n: int) {
      Fits(limit, n) && forall i :: 0 <= i < |script| ==> this.(others := script[i].others).Fits(limit, n)
    }

    // Ids of entries no other process will evict.
    ghost function Lasting(): set<string> { entries.Keys - Evictions(script) }

    // Evicted at every access from here on, and never added by others.
    ghost function Gone(): set<string> {
      if |script| == 1 then script[0].evicted - script[0].added.Keys else {}
    }
  }

  // From `a` to `b` nothing was lost but to evictions: those of the script, and `risk`.
  ghost predicate Onward(a: Cache, b: Cache, risk: set<string>) {
    a.Lasting() - risk <= b.Lasting() && Evictions(b.script) <= Evictions(a.script) && a.Gone() <= b.Gone()
  }

  lemma OnwardOn(a: Cache, b: Cache, c: Cache, risk: set<string>)
    requires Onward(a, b, risk) && Onward(b, c, risk)
    ensures Onward(a, c, risk)
  {
    forall id | id in a.Lasting() - risk ensures id in c.Lasting() {
      assert id in b.Lasting() - risk;
    }
  }

  // Visible, and never evicted from here on.
  ghost function SafeIds(floating: set<string>, cache: Cache, risk: set<string>): set<string> {
    floating + (cache.Lasting() - risk)
  }

  lemma StaySafe(floating: set<string>, a: Cache, b: Cache, lost: set<string>, risk: set<string>)
    requires Onward(a, b, lost) && lost <= risk
    ensures SafeIds(floating, a, risk) <= SafeIds(floating, b, risk)
  {
    forall id | id in a.Lasting() && id !in risk ensures id in b.Lasting() {
      assert id in a.Lasting() - lost;
    }
  }

  // Storing a tree of size `n`: with room for it, it is kept and nothing else changes;
  // otherwise the next purge is carried out, unless the tree can never fit, and the tree
  // may be dropped.
  ghost predicate Stored(before: Cache, limit: int, id: string, tree: Tree, n: nat, after: Cache) {
    && after.script == before.script
    && if before.Fits(limit, n) then after.entries == before.entries[id := tree] && after.purges == before.purges
    else if n > limit || before.purges == [] then
      && (after.entries == before.entries || after.entries == before.entries[id := tree])
      && after.purges == before.purges
    else
      var left := before.entries - before.purges[0];
      (after.entries == left || after.entries == left[id := tree]) && after.purges == before.purges[1..]
  }

  class ObjectStore {
    const limit: int               // of the cache; negative: unlimited
    const weigh: Tree -> nat       // the space a tree takes
    var objs: set<Object>
    var cache: Cache
    var faults: seq<bool>          // which of the next stages fail; all others succeed
    ghost var floating: map<string, Object>   // the finished trees of this run
    ghost var own: set<string>                // ids this store committed
    ghost var spare: int                      // room promised for commits; negative: none
    ghost var risk: set<string>               // what commits may evict for want of room

    constructor (cache: Cache, limit: int, weigh: Tree -> nat, faults: seq<bool>)
      ensures objs == {} && this.cache == cache && this.limit == limit && this.weigh == weigh && this.faults == faults
      ensures floating == map[] && own == {} && spare < 0 && risk == Union(cache.purges)
      ensures forall D :: Honest(D, cache.entries) && HonestScript(D, cache.script) ==> Valid(D)
    {
      objs, this.cache, this.limit, this.weigh, this.faults := {}, cache, limit, weigh, faults;
      floating, own, spare, risk := map[], {}, -1, Union(cache.purges);
    }

    // Every visible object holds the tree of its id, and promised room is there.
    ghost predicate Valid(D: Denotation)
      reads this, objs
    {
      && Honest(D, cache.entries) && HonestScript(D, cache.script) && Tidy(D)
      && if spare >= 0 then cache.RoomFor(limit, spare) else Union(cache.purges) <= risk
    }

    ghost predicate Tidy(D: Denotation)
      reads this`objs, this`floating, objs
    {
      && (forall o :: o in objs && o.mode.READ? ==> o.tree == D(o.id) && o.id in floating)
      && (forall id :: id in floating ==> floating[id] in objs && floating[id].mode.READ? && floating[id].id == id)
    }

    ghost predicate Visible(id: string)
      reads this`floating, this`cache
    {
      id in floating || id in cache.entries
    }

    // Take over what other processes did.
    method Sync(ghost D: Denotation)
      requires Valid(D)
      modifies this`cache
      ensures Valid(D) && cache == old(cache).Next() && Onward(old(cache), cache, {})
    {
      cache := cache.Next();
    }

    method GetFloating(ghost D: Denotation, id: string) returns (r: Option<Object>)
      requires Tidy(D)
      ensures r.Some? <==> id in floating
      ensures r.Some? ==> r.value in objs && r.value.mode.READ? && r.value.id == id
    {
      var rest := objs;
      while rest != {}
        invariant rest <= objs
        invariant forall o :: o in objs - rest ==> !(o.mode.READ? && o.id == id)
        decreases |rest|
      {
        var o :| o in rest;
        if o.mode == READ && o.id == id {
          return Some(o);
        }
        rest := rest - {o};
      }
      r := None;
    }

    method Contains(ghost D: Denotation, id: string) returns (r: bool)
      requires Valid(D)
      modifies this`cache
      ensures Valid(D) && r == (id != "" && Visible(id)) && Onward(old(cache), cache, {})
      ensures cache == if id == "" || id in floating then old(cache) else old(cache).Next()
    {
      if id == "" {
        return false;
      }
      var obj := GetFloating(D, id);
      if obj.Some? {
        return true;
      }
      Sync(D);
      r := id in cache.entries;
    }

    method Get(ghost D: Denotation, id: string) returns (r: Option<Object>)
      requires Valid(D)
      modifies this`cache
      ensures Valid(D) && r.Some? == Visible(id) && Onward(old(cache), cache, {})
      ensures r.Some? ==> r.value.mode.READ? && r.value.id == id && r.value.tree == D(id)
      ensures r.Some? ==> r.value in objs || fresh(r.value)
      ensures cache == if id in floating then old(cache) else old(cache).Next()
    {
      var obj := GetFloating(D, id);
      if obj.Some? {
        return obj;
      }
      Sync(D);
      if id in cache.entries {
        var o := new Object(id, READ, cache.entries[id]);
        r := Some(o);
      } else {
        r := None;
      }
    }

    method New(ghost D: Denotation, id: string) returns (o: Object)
      requires Valid(D)
      modifies this`objs
      ensures Valid(D)
      ensures fresh(o) && o.mode == WRITE && o.id == id && o.tree == EMPTY && objs == old(objs) + {o}
    {
      o := new Object(id, WRITE, EMPTY);
      objs := objs + {o};
    }

    // Evict entries to make room; how much that frees depends on the entries.
    method MakeRoom(ghost D: Denotation)
      requires Valid(D) && spare < 0
      modifies this`cache
      ensures Valid(D) && Onward(old(cache), cache, risk) && cache.script == old(cache.script)
      ensures cache.entries ==
        if old(cache.purges) == [] then old(cache.entries) else old(cache.entries - cache.purges[0])
      ensures cache.purges == if old(cache.purges) == [] then [] else old(cache.purges)[1..]
    {
      if cache.purges != [] {
        var others: nat :| others <= cache.others;
        var mine: nat :| mine <= cache.mine;
        cache := cache.(entries := cache.entries - cache.purges[0], purges := cache.purges[1..],
                        others := others, mine := mine);
      }
    }

    // `cache.store`, in the state of the cache it finds.
    method Keep(ghost D: Denotation, tree: Tree, id: string)
      requires Valid(D) && tree == D(id) && (spare >= 0 ==> weigh(tree) <= spare)
      modifies this`cache, this`spare
      ensures Valid(D) && Onward(old(cache), cache, risk)
      ensures spare == if old(spare) < 0 then old(spare) else old(spare) - weigh(tree)
      ensures Stored(old(cache), limit, id, tree, weigh(tree), cache)
    {
      var n := weigh(tree);
      if limit > -1 && n > limit {
        return;   // it is never going to fit
      }
      if cache.Crowded(limit, n) {
        MakeRoom(D);
        if cache.Crowded(limit, n) {
          return;
        }
      }
      // when the name is taken the new entry is dropped, and de-accounted, again
      if id !in cache.entries {
        cache := cache.(mine := cache.mine + n, entries := cache.entries[id := tree]);
      }
      if spare >= 0 {
        spare := spare - n;
      }
    }

    /** Store the tree in the cache.  If it does not fit, entries are evicted first, and it
        may be dropped all the same; when there is room, nothing is evicted and it is
        kept. */
    method Commit(ghost D: Denotation, obj: Object, id: string)
      requires Valid(D) && obj.tree == D(id) && (spare >= 0 ==> weigh(obj.tree) <= spare)
      modifies this`cache, this`own, this`spare
      ensures Valid(D) && own == old(own) + {id} && Onward(old(cache), cache, risk)
      ensures spare == if old(spare) < 0 then old(spare) else old(spare) - weigh(obj.tree)
      ensures Stored(old(cache).Next(), limit, id, obj.tree, weigh(obj.tree), cache)
    {
      own := own + {id};
      Sync(D);
      Keep(D, obj.tree, id);
    }
  }

  datatype Outcome =
    | Nothing               // no stages
    | Skipped               // the tree is there already
    | Built
    | StageFailed
    | NoBuildTree           // AssertionError: build tree not found
    | NoInput(id: string)   // an input's tree is not in the store

  // No stage tree at or after `i` was safe to resume from.
  ghost predicate NoneToResume(p: Pipeline, i: int, safe: set<string>) {
    forall j :: 0 <= j < |p.stages| && i <= j ==> p.stages[j].id !in safe
  }

  // Stage `k - 1` is the last one whose tree is visible.
  ghost predicate IsLatest(p: Pipeline, k: nat, store: ObjectStore)
    requires k <= |p.stages|
    reads store`floating, store`cache
  {
    && (k > 0 ==> store.Visible(p.stages[k - 1].id))
    && NoneToResume(p, k, store.floating.Keys + store.cache.entries.Keys)
  }

  // Without others at work, what is visible is safe.
  lemma AloneIsSafe(floating: set<string>, cache: Cache)
    requires cache.script == []
    ensures SafeIds(floating, cache, {}) == floating + cache.entries.Keys
  {
  }

  // The stages from `i` on, as a stack: the next one is the last element.
  ghost function Left(p: Pipeline, i: nat): seq<Stage>
    requires i <= |p.stages|
    decreases |p.stages| - i
  {
    if i == |p.stages| then [] else Left(p, i + 1) + [p.stages[i]]
  }

  lemma NoneToResumeBelow(p: Pipeline, i: nat, safe: set<string>)
    requires NoneToResume(p, i + 1, safe) && i < |p.stages| && p.stages[i].id !in safe
    ensures NoneToResume(p, i, safe)
  {
  }

  // The cache was `was` when the search began, and no stage from `i` on could be resumed
  // from.
  ghost predicate Searched(store: ObjectStore, D: Denotation, p: Pipeline, i: nat, was: Cache)
    reads store, store.objs
  {
    && store.Valid(D) && Onward(was, store.cache, {}) && (was.script == [] ==> store.cache == was)
    && NoneToResume(p, i, SafeIds(store.floating.Keys, was, {}))
  }

  // The tree of the last stage before `k` was there.
  ghost predicate FoundAt(store: ObjectStore, p: Pipeline, k: nat, was: Cache)
    requires k <= |p.stages|
    reads store
  {
    k > 0 ==> store.Visible(p.stages[k - 1].id) && p.stages[k - 1].id !in was.Gone() - store.floating.Keys
  }

  // Ask for the tree of the stage before `i`, and start from it if it is there.
  method StartFrom(store: ObjectStore, ghost D: Denotation, p: Pipeline, i: nat, tree: Object, ghost was: Cache)
    returns (found: bool)
    requires Searched(store, D, p, i, was) && 0 < i <= |p.stages|
    requires tree in store.objs && tree.mode.WRITE? && tree.tree == EMPTY
    modifies store`cache, tree`tree
    ensures tree.tree == if found then TreeBefore(D, p, i) else EMPTY
    ensures Searched(store, D, p, if found then i else i - 1, was) && (found ==> FoundAt(store, p, i, was))
  {
    ghost var before := store.cache;
    var base := store.Get(D, p.stages[i - 1].id);
    found := base.Some?;
    OnwardOn(was, before, store.cache, {});
    if found {
      tree.Init(base.value);
    } else {
      StaySafe(store.floating.Keys, was, store.cache, {}, {});
      NoneToResumeBelow(p, i - 1, SafeIds(store.floating.Keys, was, {}));
    }
  }

  // The stage a build can resume after, found by asking for each tree from the last
  // one down; `todo` then holds the stages left, next one last.
  method Resume(store: ObjectStore, ghost D: Denotation, p: Pipeline, tree: Object)
    returns (todo: seq<Stage>, ghost k: nat)
    requires store.Valid(D) && tree in store.objs && tree.mode.WRITE? && tree.tree == EMPTY
    modifies store`cache, tree`tree
    ensures k <= |p.stages| && tree.tree == TreeBefore(D, p, k) && todo == Left(p, k)
    ensures Searched(store, D, p, k, old(store.cache)) && FoundAt(store, p, k, old(store.cache))
    ensures old(store.cache.script) == [] ==> IsLatest(p, k, store)
  {
    ghost var was := store.cache;
    todo := [];
    k := |p.stages|;
    var i := |p.stages|;
    while i > 0
      invariant 0 <= i == k <= |p.stages| && todo == Left(p, i) && Searched(store, D, p, i, was)
      invariant tree in store.objs && tree.mode.WRITE? && tree.tree == EMPTY
    {
      var found := StartFrom(store, D, p, i, tree, was);
      if found {
        break;
      }
      todo := todo + [p.stages[i - 1]];
      i := i - 1;
      k := i;
    }
    if was.script == [] {
      AloneIsSafe(store.floating.Keys, was);
    }
  }

  // The trees of a stage's pipeline inputs.
  method MapInputs(store: ObjectStore, ghost D: Denotation, deps: seq<string>)
    returns (missing: Option<string>, inputs: map<string, Tree>)
    requires store.Valid(D)
    modifies store`cache
    ensures store.Valid(D) && Onward(old(store.cache), store.cache, {})
    ensures missing.None? ==> inputs == InputsOf(D, deps)
    ensures missing.None? ==> forall d :: d in deps ==> d !in old(store.cache).Gone() - store.floating.Keys
    ensures missing.Some? ==> missing.value in deps && !store.Visible(missing.value)
    ensures old(store.cache.script) == [] ==> store.cache == old(store.cache)
  {
    ghost var gone := store.cache.Gone() - store.floating.Keys;
    inputs := map[];
    var i := 0;
    while i < |deps|
      invariant 0 <= i <= |deps| && store.Valid(D) && Onward(old(store.cache), store.cache, {})
      invariant old(store.cache.script) == [] ==> store.cache == old(store.cache)
      invariant inputs == InputsOf(D, deps[..i]) && forall d :: d in deps[..i] ==> d !in gone
    {
      var obj := store.Get(D, deps[i]);
      if obj.None? {
        return Some(deps[i]), inputs;
      }
      inputs := inputs[deps[i] := obj.value.tree];
      assert deps[..i + 1] == deps[..i] + [deps[i]];
      i := i + 1;
    }
    assert deps[..i] == deps;
    missing := None;
  }

  // The ids of the first `n` stages; the checkpoints, and the inputs, of those after `k`.
  ghost function Ids(p: Pipeline, n: nat): set<string>
    requires n <= |p.stages|
  {
    if n == 0 then {} else Ids(p, n - 1) + {p.stages[n - 1].id}
  }

  ghost function Checkpoints(p: Pipeline, k: nat, n: nat): set<string>
    requires k <= n <= |p.stages|
  {
    if n == k then {} else Checkpoints(p, k, n - 1) + (if p.stages[n - 1].checkpoint then {p.stages[n - 1].id} else {})
  }

  ghost function Elements(deps: seq<string>): set<string> { set d | d in deps }

  ghost function Inputs(p: Pipeline, k: nat, n: nat): set<string>
    requires k <= n <= |p.stages|
  {
    if n == k then {} else Inputs(p, k, n - 1) + Elements(p.stages[n - 1].deps)
  }

  lemma {:induction false} IdsAt(p: Pipeline, n: nat, id: string)
    requires n <= |p.stages|
    ensures id in Ids(p, n) <==> exists j :: 0 <= j < n && p.stages[j].id == id
  {
    if n > 0 {
      IdsAt(p, n - 1, id);
    }
  }

  lemma {:induction false} InputsAt(p: Pipeline, k: nat, n: nat, j: nat)
    requires k <= j < n <= |p.stages|
    ensures forall d :: d in p.stages[j].deps ==> d in Inputs(p, k, n)
  {
    if j < n - 1 {
      InputsAt(p, k, n - 1, j);
    }
  }

  // Only trees of stages before the last one were committed since `was`.
  ghost predicate OwnBelowLast(own: set<string>, was: set<string>, p: Pipeline) {
    p.stages != [] ==> own <= was + Ids(p, |p.stages| - 1)
  }

  // `id` is an input of a stage after the last tree that was safe to resume from,
  // and was not safe itself.
  ghost predicate Starved(p: Pipeline, id: string, safe: set<string>) {
    exists i :: 0 <= i < |p.stages| && StarvedAt(p, i, id, safe)
  }

  ghost predicate StarvedAt(p: Pipeline, i: int, id: string, safe: set<string>)
    requires 0 <= i < |p.stages|
  {
    id in p.stages[i].deps && id !in safe && NoneToResume(p, i, safe)
  }

  lemma StarvedBefore(p: Pipeline, id: string, safe: set<string>, later: set<string>)
    requires Starved(p, id, later) && safe <= later
    ensures Starved(p, id, safe)
  {
    var i :| 0 <= i < |p.stages| && StarvedAt(p, i, id, later);
    assert StarvedAt(p, i, id, safe);
  }

  // The space the checkpoints from stage `i` on take.
  ghost function Need(weigh: Tree -> nat, D: Denotation, p: Pipeline, i: nat): nat
    requires i <= |p.stages|
    decreases |p.stages| - i
  {
    if i == |p.stages| then 0 else Cost(weigh, D, p.stages[i]) + Need(weigh, D, p, i + 1)
  }

  ghost function Cost(weigh: Tree -> nat, D: Denotation, s: Stage): nat {
    if s.checkpoint then weigh(D(s.id)) else 0
  }

  lemma {:induction false} NeedShrinks(weigh: Tree -> nat, D: Denotation, p: Pipeline, i: nat, k: nat)
    requires i <= k <= |p.stages|
    ensures Need(weigh, D, p, k) <= Need(weigh, D, p, i)
    decreases k - i
  {
    if i < k {
      NeedShrinks(weigh, D, p, i + 1, k);
    }
  }

  // At most `cost` of the promised room was used, if any was promised.
  ghost predicate Spent(before: int, after: int, cost: nat) {
    if before < 0 then after < 0 else before - cost <= after
  }

  // There is room for `cost` more, and for `rest` after that, if any was promised.
  ghost predicate Affords(spare: int, cost: nat, rest: int) {
    if rest < 0 then spare < 0 else cost + rest <= spare
  }

  // The stage at work, once its inputs are there.
  method Execute(store: ObjectStore, run: Runner, ghost D: Denotation, p: Pipeline, ghost i: nat, stage: Stage,
                 buildTree: Option<Tree>, tree: Object, inputs: map<string, Tree>)
    returns (r: Outcome)
    requires store.Valid(D) && tree in store.objs && tree.mode.WRITE?
    requires Respects(run, D, p) && i < |p.stages| && stage == p.stages[i]
    requires tree.tree == TreeBefore(D, p, i) && buildTree == BuildOf(D, p) && inputs == InputsOf(D, stage.deps)
    requires store.spare >= 0 ==> Cost(store.weigh, D, stage) <= store.spare
    modifies store`cache, store`faults, store`own, store`spare, tree`tree
    ensures store.Valid(D) && (r.Built? || r.StageFailed?) && Onward(old(store.cache), store.cache, store.risk)
    ensures Spent(old(store.spare), store.spare, Cost(store.weigh, D, stage))
    ensures r.Built? ==> tree.tree == TreeBefore(D, p, i + 1)
    ensures store.own == old(store.own) + (if r.Built? && stage.checkpoint then {stage.id} else {})
    ensures old(store.faults) == [] ==> store.faults == [] && r.Built?
    ensures
      if r.Built? && stage.checkpoint then
        Stored(old(store.cache).Next(), store.limit, stage.id, D(stage.id), store.weigh(D(stage.id)), store.cache)
      else store.cache == old(store.cache)
  {
    if store.faults != [] {
      var fails := store.faults[0];
      store.faults := store.faults[1..];
      if fails {
        tree.tree := *;   // whatever the stage left behind
        return StageFailed;
      }
    }
    tree.tree := run(stage.id, tree.tree, buildTree, inputs);
    assert RespectsAt(run, D, p, i);
    if stage.checkpoint {
      store.Commit(D, tree, stage.id);
    }
    r := Built;
  }

  // Run one stage.
  method RunOne(store: ObjectStore, run: Runner, ghost D: Denotation, p: Pipeline, ghost i: nat, stage: Stage,
                buildTree: Option<Tree>, tree: Object, ghost safe: set<string>)
    returns (r: Outcome)
    requires store.Valid(D) && tree in store.objs && tree.mode.WRITE?
    requires Respects(run, D, p) && i < |p.stages| && stage == p.stages[i]
    requires tree.tree == TreeBefore(D, p, i) && buildTree == BuildOf(D, p)
    requires safe <= SafeIds(store.floating.Keys, store.cache, store.risk) && NoneToResume(p, i, safe)
    requires store.spare >= 0 ==> Cost(store.weigh, D, stage) <= store.spare
    modifies store`cache, store`faults, store`own, store`spare, tree`tree
    ensures store.Valid(D) && Onward(old(store.cache), store.cache, store.risk)
    ensures Spent(old(store.spare), store.spare, Cost(store.weigh, D, stage))
    ensures r.Built? || r.StageFailed? || r.NoInput?
    ensures r.Built? ==> tree.tree == TreeBefore(D, p, i + 1)
    ensures r.Built? ==> forall d :: d in stage.deps ==> d !in old(store.cache).Gone() - store.floating.Keys
    ensures store.own == old(store.own) + (if r.Built? && stage.checkpoint then {stage.id} else {})
    ensures r.NoInput? ==> !store.Visible(r.id) && Starved(p, r.id, safe)
    ensures old(store.faults) == [] ==> store.faults == [] && !r.StageFailed?
    ensures r.Built? && old(store.cache.script) == [] ==> StruckOne(store, D, stage, old(store.cache), store.cache)
  {
    var missing, inputs := MapInputs(store, D, stage.deps);
    StaySafe(store.floating.Keys, old(store.cache), store.cache, {}, store.risk);
    if missing.Some? {
      assert StarvedAt(p, i, missing.value, safe);
      return NoInput(missing.value);
    }
    r := Execute(store, run, D, p, i, stage, buildTree, tree, inputs);
  }

  // What the stages from `k` to `n` did, as far as others can tell: the checkpoints
  // were committed, nothing else was, and no input was among `gone`.
  ghost predicate Ran(p: Pipeline, k: nat, n: nat, was: set<string>, own: set<string>, gone: set<string>)
    requires k <= n <= |p.stages|
  {
    own <= was + Ids(p, n) && Checkpoints(p, k, n) <= own && Inputs(p, k, n) !! gone
  }

  lemma {:induction false} IdsGrow(p: Pipeline, n: nat, m: nat)
    requires n <= m <= |p.stages|
    ensures Ids(p, n) <= Ids(p, m)
  {
    if n < m {
      IdsGrow(p, n, m - 1);
    }
  }

  lemma RanOne(p: Pipeline, k: nat, n: nat, was: set<string>, own: set<string>, own': set<string>, gone: set<string>,
               built: bool)
    requires k <= n < |p.stages| && Ran(p, k, n, was, own, gone)
    requires own' == own + (if built && p.stages[n].checkpoint then {p.stages[n].id} else {})
    requires built ==> forall d :: d in p.stages[n].deps ==> d !in gone
    ensures if built then Ran(p, k, n + 1, was, own', gone) else OwnBelowLast(own', was, p)
  {
    IdsGrow(p, n, |p.stages| - 1);
  }

  // A stage that has run changed an undisturbed cache only by its commit.
  ghost predicate StruckOne(store: ObjectStore, D: Denotation, stage: Stage, was: Cache, now: Cache) {
    && now.script == []
    && if stage.checkpoint then Stored(was, store.limit, stage.id, D(stage.id), store.weigh(D(stage.id)), now)
       else now == was
  }

  // None of the checkpoints of `p` fits.
  ghost predicate Overflows(store: ObjectStore, D: Denotation, p: Pipeline, cache: Cache) {
    && cache.script == [] && cache.purges != []
    && forall j :: 0 <= j < |p.stages| && p.stages[j].checkpoint ==>
         cache.Crowded(store.limit, store.weigh(D(p.stages[j].id)))
  }

  // The last stage is a checkpoint.
  predicate EndsMarked(p: Pipeline) { p.stages != [] && p.stages[|p.stages| - 1].checkpoint }

  // The first checkpoint carries out the first purge, and nobody brings the entries back.
  ghost predicate Struck(store: ObjectStore, D: Denotation, p: Pipeline, k: nat, i: nat, was: Cache, now: Cache)
    requires k <= i <= |p.stages|
  {
    Overflows(store, D, p, was) ==>
      && now.script == [] && now.entries.Keys <= was.entries.Keys + Ids(p, |p.stages|)
      && if Checkpoints(p, k, i) == {} then now == was else (was.purges[0] - Ids(p, |p.stages|)) !! now.entries.Keys
  }

  lemma StruckNext(store: ObjectStore, D: Denotation, p: Pipeline, k: nat, i: nat, was: Cache, now: Cache, next: Cache)
    requires k <= i < |p.stages| && Struck(store, D, p, k, i, was, now)
    requires now.script == [] ==> StruckOne(store, D, p.stages[i], now, next)
    ensures Struck(store, D, p, k, i + 1, was, next)
  {
    IdsAt(p, |p.stages|, p.stages[i].id);
  }

  // What is left of an undisturbed cache after a build that had to make room.
  ghost predicate Swept(store: ObjectStore, D: Denotation, p: Pipeline, was: Cache, now: Cache) {
    Overflows(store, D, p, was) && EndsMarked(p) ==>
      && now.script == [] && now.entries.Keys <= was.entries.Keys + Ids(p, |p.stages|)
      && (was.purges[0] - Ids(p, |p.stages|)) !! now.entries.Keys
  }

  lemma SweptAtEnd(store: ObjectStore, D: Denotation, p: Pipeline, k: nat, was: Cache, now: Cache)
    requires k < |p.stages| && Struck(store, D, p, k, |p.stages|, was, now)
    ensures Swept(store, D, p, was, now)
  {
    assert EndsMarked(p) ==> p.stages[|p.stages| - 1].id in Checkpoints(p, k, |p.stages|);
  }

  // What the store was like when the build of a pipeline began; `rest` is the room that
  // has to be left in the end.
  datatype Past = Past(cache: Cache, own: set<string>, rest: int)

  // What was safe, and what was gone, at that time.
  ghost function WasSafe(store: ObjectStore, past: Past): set<string>
    reads store`floating, store`risk
  {
    SafeIds(store.floating.Keys, past.cache, store.risk)
  }

  ghost function WasGone(store: ObjectStore, past: Past): set<string>
    reads store`floating
  {
    past.cache.Gone() - store.floating.Keys
  }

  // The stages from `k` to `i` have run; there is room for the checkpoints that are left.
  ghost predicate Underway(store: ObjectStore, D: Denotation, p: Pipeline, k: nat, i: nat, tree: Object, past: Past)
    requires k <= i <= |p.stages|
    reads store, store.objs, tree
  {
    && store.Valid(D) && tree in store.objs && tree.mode.WRITE? && tree.tree == TreeBefore(D, p, i)
    && Onward(past.cache, store.cache, store.risk) && Ran(p, k, i, past.own, store.own, WasGone(store, past))
    && Affords(store.spare, Need(store.weigh, D, p, i), past.rest) && Struck(store, D, p, k, i, past.cache, store.cache)
  }

  // How the loop over the stages can end early.
  ghost predicate Ended(store: ObjectStore, D: Denotation, p: Pipeline, past: Past, r: Outcome)
    reads store, store.objs
  {
    && store.Valid(D) && Onward(past.cache, store.cache, store.risk)
    && Affords(store.spare, 0, past.rest) && OwnBelowLast(store.own, past.own, p)
    && (r.NoInput? ==> !store.Visible(r.id) && Starved(p, r.id, WasSafe(store, past)))
  }

  // One turn of the loop over the stages.
  method RunNext(store: ObjectStore, run: Runner, ghost D: Denotation, p: Pipeline, ghost k: nat, ghost i: nat,
                 todo: seq<Stage>, buildTree: Option<Tree>, tree: Object, ghost past: Past)
    returns (r: Outcome, left: seq<Stage>)
    requires Respects(run, D, p) && k <= i < |p.stages| && todo == Left(p, i) && buildTree == BuildOf(D, p)
    requires Underway(store, D, p, k, i, tree, past) && NoneToResume(p, k, WasSafe(store, past))
    modifies store`cache, store`faults, store`own, store`spare, tree`tree
    ensures r.Built? || r.StageFailed? || r.NoInput?
    ensures if r.Built? then Underway(store, D, p, k, i + 1, tree, past) else Ended(store, D, p, past, r)
    ensures old(store.faults) == [] ==> store.faults == [] && !r.StageFailed?
    ensures left == Left(p, i + 1)
  {
    var stage := todo[|todo| - 1];
    left := todo[..|todo| - 1];
    StaySafe(store.floating.Keys, past.cache, store.cache, store.risk, store.risk);
    r := RunOne(store, run, D, p, i, stage, buildTree, tree, WasSafe(store, past));
    OnwardOn(past.cache, old(store.cache), store.cache, store.risk);
    RanOne(p, k, i, past.own, old(store.own), store.own, WasGone(store, past), r.Built?);
    if r.Built? {
      StruckNext(store, D, p, k, i, past.cache, old(store.cache), store.cache);
    }
  }

  // Run stages `k..`; on success `tree` holds the tree of the last stage.
  method RunStages(store: ObjectStore, run: Runner, ghost D: Denotation, p: Pipeline, buildTree: Option<Tree>,
                   tree: Object, stages: seq<Stage>, ghost k: nat, ghost past: Past)
    returns (r: Outcome)
    requires Respects(run, D, p) && k <= |p.stages| && p.stages != [] && buildTree == BuildOf(D, p)
    requires stages == Left(p, k) && Underway(store, D, p, k, k, tree, past) && NoneToResume(p, k, WasSafe(store, past))
    modifies store`cache, store`faults, store`own, store`spare, tree`tree
    ensures r.Built? || r.StageFailed? || r.NoInput?
    ensures if r.Built? then Underway(store, D, p, k, |p.stages|, tree, past) else Ended(store, D, p, past, r)
    ensures old(store.faults) == [] ==> store.faults == [] && !r.StageFailed?
  {
    var todo := stages;
    ghost var i: nat := k;
    while todo != []
      invariant k <= i <= |p.stages| && todo == Left(p, i) && Underway(store, D, p, k, i, tree, past)
      invariant old(store.faults) == [] ==> store.faults == []
      decreases |p.stages| - i
    {
      r, todo := RunNext(store, run, D, p, k, i, todo, buildTree, tree, past);
      if !r.Built? {
        return;
      }
      i := i + 1;
    }
    r := Built;
  }

  ghost predicate HasTree(store: ObjectStore, id: string, t: Tree)
    reads store, store.objs
  {
    exists o :: o in store.objs && o.mode.READ? && o.id == id && o.tree == t
  }

  // An input is gone that cannot be avoided by resuming.
  ghost predicate Deprived(p: Pipeline, gone: set<string>) {
    exists k :: 0 <= k < |p.stages| && DeprivedAt(p, k, gone)
  }

  ghost predicate DeprivedAt(p: Pipeline, k: int, gone: set<string>)
    requires 0 <= k < |p.stages|
  {
    (exists d :: d in p.stages[k].deps && d in gone) && forall j :: k <= j < |p.stages| ==> p.stages[j].id in gone
  }

  lemma DeprivedStays(p: Pipeline, gone: set<string>, later: set<string>)
    requires gone <= later && !Deprived(p, later)
    ensures !Deprived(p, gone)
  {
    if k :| 0 <= k < |p.stages| && DeprivedAt(p, k, gone) {
      assert DeprivedAt(p, k, later);
    }
  }

  // Stages that ran to the end had all their inputs.
  lemma RanNotDeprived(p: Pipeline, k: nat, gone: set<string>)
    requires k <= |p.stages| && Inputs(p, k, |p.stages|) !! gone && (k > 0 ==> p.stages[k - 1].id !in gone)
    ensures !Deprived(p, gone)
  {
    if j :| 0 <= j < |p.stages| && DeprivedAt(p, j, gone) {
      var d :| d in p.stages[j].deps && d in gone;
      assert k <= j;
      InputsAt(p, k, |p.stages|, j);
    }
  }

  // Find where to start; `past` is the store as it is.
  method Begin(store: ObjectStore, ghost D: Denotation, p: Pipeline, tree: Object, ghost past: Past)
    returns (todo: seq<Stage>, ghost k: nat)
    requires store.Valid(D) && tree in store.objs && tree.mode.WRITE? && tree.tree == EMPTY
    requires past.cache == store.cache && past.own == store.own
    requires Affords(store.spare, Need(store.weigh, D, p, 0), past.rest)
    modifies store`cache, tree`tree
    ensures k <= |p.stages| && todo == Left(p, k) && Underway(store, D, p, k, k, tree, past)
    ensures NoneToResume(p, k, WasSafe(store, past)) && (k > 0 ==> p.stages[k - 1].id !in WasGone(store, past))
    ensures old(store.cache.script) == [] && k > 0 ==> old(store.Visible(p.stages[k - 1].id))
  {
    todo, k := Resume(store, D, p, tree);
    NeedShrinks(store.weigh, D, p, 0, k);
    assert WasSafe(store, past) <= SafeIds(store.floating.Keys, past.cache, {});
  }

  // Make the tree of `p` in `tree`, from wherever it can resume.
  method Fill(store: ObjectStore, run: Runner, ghost D: Denotation, p: Pipeline, buildTree: Option<Tree>, tree: Object)
    returns (r: Outcome)
    requires store.Valid(D) && Respects(run, D, p) && p.stages != [] && buildTree == BuildOf(D, p)
    requires tree in store.objs && tree.mode.WRITE? && tree.tree == EMPTY
    requires store.spare >= 0 ==> Need(store.weigh, D, p, 0) <= store.spare
    modifies store`cache, store`faults, store`own, store`spare, tree`tree
    ensures store.Valid(D) && Onward(old(store.cache), store.cache, store.risk)
    ensures Spent(old(store.spare), store.spare, Need(store.weigh, D, p, 0))
    ensures r.Built? || r.StageFailed? || r.NoInput?
    ensures r.Built? ==> tree.tree == TreeBefore(D, p, |p.stages|)
    ensures r.Built? ==> !Deprived(p, old(store.cache).Gone() - store.floating.Keys)
    ensures !r.Built? ==> OwnBelowLast(store.own, old(store.own), p)
    ensures r.NoInput? ==>
      !store.Visible(r.id) && Starved(p, r.id, old(SafeIds(store.floating.Keys, store.cache, store.risk)))
    ensures old(store.faults) == [] ==> store.faults == [] && !r.StageFailed?
    ensures r.Built? && !old(store.Visible(p.Id().value)) ==> Swept(store, D, p, old(store.cache), store.cache)
  {
    ghost var rest := if store.spare < 0 then -1 else store.spare - Need(store.weigh, D, p, 0);
    ghost var past := Past(store.cache, store.own, rest);
    var todo, k := Begin(store, D, p, tree, past);
    r := RunStages(store, run, D, p, buildTree, tree, todo, k, past);
    if r.Built? {
      RanNotDeprived(p, k, WasGone(store, past));
      if k < |p.stages| {
        SweptAtEnd(store, D, p, k, past.cache, store.cache);
      }
    }
  }

  // Make the tree of `p`, whose id is not visible, in a new object.
  method BuildNew(store: ObjectStore, run: Runner, ghost D: Denotation, p: Pipeline, id: string,
                  buildTree: Option<Tree>)
    returns (r: Outcome)
    requires store.Valid(D) && Respects(run, D, p) && p.Id() == Some(id) && buildTree == BuildOf(D, p)
    requires store.spare >= 0 ==> Need(store.weigh, D, p, 0) <= store.spare
    modifies store`objs, store`cache, store`faults, store`floating, store`own, store`spare
    ensures store.Valid(D) && Onward(old(store.cache), store.cache, store.risk)
    ensures Spent(old(store.spare), store.spare, Need(store.weigh, D, p, 0))
    ensures r.Built? || r.StageFailed? || r.NoInput?
    ensures r.Built? ==> HasTree(store, id, FromScratch(run, D, p, |p.stages|))
    ensures r.Built? ==> !Deprived(p, old(store.cache.Gone() - store.floating.Keys))
    ensures store.floating.Keys == old(store.floating.Keys) + (if r.Built? then {id} else {})
    ensures !r.Built? ==> OwnBelowLast(store.own, old(store.own), p)
    ensures r.NoInput? ==>
      !store.Visible(r.id) && Starved(p, r.id, old(SafeIds(store.floating.Keys, store.cache, store.risk)))
    ensures old(store.faults) == [] ==> store.faults == [] && !r.StageFailed?
    ensures r.Built? && !old(store.Visible(p.Id().value)) ==> Swept(store, D, p, old(store.cache), store.cache)
  {
    var tree := store.New(D, id);
    r := Fill(store, run, D, p, buildTree, tree);
    if r.Built? {
      ScratchIsDenotation(run, D, p, |p.stages|);
      Publish(store, D, tree);
    }
  }

  // The finished object can be read, and is found under its id.
  method Publish(store: ObjectStore, ghost D: Denotation, tree: Object)
    requires store.Valid(D) && tree in store.objs && tree.tree == D(tree.id)
    modifies tree`mode, store`floating
    ensures store.Valid(D) && HasTree(store, tree.id, tree.tree)
    ensures store.floating.Keys == old(store.floating.Keys) + {tree.id}
  {
    tree.Finalize();
    store.floating := store.floating[tree.id := tree];
  }

  // As in every linked pipeline, see ContentId.IdsDistinct.
  ghost predicate DistinctStages(p: Pipeline) {
    forall i, j :: 0 <= i < j < |p.stages| ==> p.stages[i].id != p.stages[j].id
  }

  lemma OwnIdNotCommitted(own: set<string>, was: set<string>, p: Pipeline)
    requires OwnBelowLast(own, was, p) && DistinctStages(p) && p.stages != []
    ensures p.Id().value in own ==> p.Id().value in was
  {
    IdsAt(p, |p.stages| - 1, p.Id().value);
  }

  // Whether there is anything to do, and the build tree to do it in.
  method Prepare(store: ObjectStore, ghost D: Denotation, p: Pipeline, id: string)
    returns (stop: Option<Outcome>, buildTree: Option<Tree>)
    requires store.Valid(D) && p.Id() == Some(id)
    modifies store`cache
    ensures store.Valid(D) && Onward(old(store.cache), store.cache, {})
    ensures stop.None? ==> buildTree == BuildOf(D, p)
    ensures stop.Some? ==> stop.value.Skipped? || stop.value.NoBuildTree?
    ensures stop == Some(Skipped) <==> id != "" && (id in store.floating || id in old(store.cache).Next().entries)
    ensures stop == Some(Skipped) ==>
      store.Visible(id) && store.cache == if id in store.floating then old(store.cache) else old(store.cache).Next()
    ensures stop == Some(NoBuildTree) ==> p.HasBuild() && !store.Visible(p.build.value)
    ensures p.HasBuild() && p.build.value in old(store.cache).Gone() - store.floating.Keys ==> stop.Some?
    ensures old(store.cache.script) == [] ==>
      && store.cache == old(store.cache)
      && (stop == Some(NoBuildTree) <==> stop != Some(Skipped) && p.HasBuild() && !store.Visible(p.build.value))
  {
    stop, buildTree := None, None;
    var done := store.Contains(D, id);
    if done {
      return Some(Skipped), None;
    }
    if p.HasBuild() {
      var obj := store.Get(D, p.build.value);
      if obj.None? {
        return Some(NoBuildTree), None;
      }
      buildTree := Some(obj.value.tree);
    }
  }

  /** Building one pipeline, from wherever it can resume.  Every visible object still
      holds the tree of its id; on success the tree is the one of a build from
      scratch; otherwise nothing becomes visible that was not committed by a stage
      that succeeded.  What is safe stays safe, and a build tree or input that is
      lacking was not safe before. */
  method BuildStages(store: ObjectStore, run: Runner, ghost D: Denotation, p: Pipeline) returns (r: Outcome)
    requires store.Valid(D) && Respects(run, D, p)
    requires store.spare >= 0 ==> Need(store.weigh, D, p, 0) <= store.spare
    modifies store`objs, store`cache, store`faults, store`floating, store`own, store`spare
    ensures store.Valid(D) && Onward(old(store.cache), store.cache, store.risk)
    ensures Spent(old(store.spare), store.spare, Need(store.weigh, D, p, 0))
    ensures r.Nothing? <==> p.stages == []
    ensures r.Nothing? ==> store.cache == old(store.cache)
    ensures r.Skipped? <==>
      && p.stages != [] && p.Id().value != ""
      && (p.Id().value in old(store.floating) || p.Id().value in old(store.cache).Next().entries)
    ensures r.Skipped? ==>
      && store.Visible(p.Id().value)
      && store.cache == if p.Id().value in old(store.floating) then old(store.cache) else old(store.cache).Next()
    ensures r.Built? ==> HasTree(store, p.Id().value, FromScratch(run, D, p, |p.stages|))
    ensures store.floating.Keys == old(store.floating.Keys) + (if r.Built? then {p.Id().value} else {})
    ensures !r.Built? ==> OwnBelowLast(store.own, old(store.own), p)
    ensures !r.Built? && p.stages != [] && DistinctStages(p) && p.Id().value in store.own ==>
      p.Id().value in old(store.own)
    ensures r.NoBuildTree? ==> p.HasBuild() && !store.Visible(p.build.value)
    ensures r.NoInput? ==>
      !store.Visible(r.id) && Starved(p, r.id, old(SafeIds(store.floating.Keys, store.cache, store.risk)))
    ensures p.HasBuild() && p.build.value in old(store.cache.Gone() - store.floating.Keys) ==>
      p.stages == [] || r.Skipped? || r.NoBuildTree?
    ensures Deprived(p, old(store.cache.Gone() - store.floating.Keys)) ==> !r.Built?
    ensures old(store.cache.script) == [] && p.stages != [] ==>
      (r.NoBuildTree? <==> !r.Skipped? && p.HasBuild() && !old(store.Visible(p.build.value)))
    ensures old(store.cache.script) == [] && (r.Skipped? || r.NoBuildTree?) ==> store.cache == old(store.cache)
    ensures old(store.faults) == [] ==> store.faults == [] && !r.StageFailed?
    ensures r.Built? && !old(store.Visible(p.Id().value)) ==> Swept(store, D, p, old(store.cache), store.cache)
  {
    if p.stages == [] {
      return Nothing;
    }
    var id := p.stages[|p.stages| - 1].id;
    var stop, buildTree := Prepare(store, D, p, id);
    if stop.Some? {
      return stop.value;
    }
    ghost var safe := SafeIds(store.floating.Keys, store.cache, store.risk);
    ghost var gone := store.cache.Gone() - store.floating.Keys;
    StaySafe(store.floating.Keys, old(store.cache), store.cache, {}, store.risk);
    r := BuildNew(store, run, D, p, id, buildTree);
    if r.NoInput? {
      StarvedBefore(p, r.id, old(SafeIds(store.floating.Keys, store.cache, store.risk)), safe);
    }
    if r.Built? {
      DeprivedStays(p, old(store.cache.Gone() - store.floating.Keys), gone);
    }
    if !r.Built? && DistinctStages(p) {
      OwnIdNotCommitted(store.own, old(store.own), p);
    }
  }
}
