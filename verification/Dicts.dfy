/**
  Dictionaries and their text: `json.dumps(d, sort_keys=True)` lists the items in
  the order of their keys, so equal dictionaries have equal texts however they were
  filled.
 */
module Dicts {
  import opened JsonText

  type Dict = map<string, Json>

  // Lexicographic order.
  predicate Le(a: string, b: string) {
    a == "" || (b != "" && (a[0] < b[0] || (a[0] == b[0] && Le(a[1..], b[1..]))))
  }

  lemma {:induction false} LeTotal(a: string, b: string)
    ensures Le(a, b) || Le(b, a)
    ensures Le(a, b) && Le(b, a) ==> a == b
  {
    if a != "" && b != "" {
      LeTotal(a[1..], b[1..]);
      assert a[0] == b[0] && a[1..] == b[1..] ==> a == [a[0]] + a[1..] == b;
    }
  }

  lemma {:induction false} LeTrans(a: string, b: string, c: string)
    requires Le(a, b) && Le(b, c)
    ensures Le(a, c)
  {
    if a != "" && b != "" && c != "" && a[0] == b[0] == c[0] {
      LeTrans(a[1..], b[1..], c[1..]);
    }
  }

  predicate IsLeast(keys: set<string>, k: string) {
    k in keys && forall j :: j in keys ==> Le(k, j)
  }

  lemma {:induction false} LeastExists(keys: set<string>) returns (k: string)
    requires keys != {}
    ensures IsLeast(keys, k)
  {
    var x :| x in keys;
    LeTotal(x, x);
    if keys == {x} {
      k := x;
    } else {
      k := LeastExists(keys - {x});
      LeTotal(x, k);
      if Le(x, k) {
        forall j | j in keys ensures Le(x, j) {
          if j != x { LeTrans(x, k, j); }
        }
        k := x;
      }
    }
  }

  function Least(keys: set<string>): (k: string)
    requires keys != {}
    ensures k in keys
  {
    assert exists k :: IsLeast(keys, k) by { var k := LeastExists(keys); }
    assert forall k, j :: IsLeast(keys, k) && IsLeast(keys, j) ==> k == j by {
      forall k, j | IsLeast(keys, k) && IsLeast(keys, j) ensures k == j { LeTotal(k, j); }
    }
    var k :| k in keys && IsLeast(keys, k);
    k
  }

  // The items in the order of their keys.
  function Sorted(d: Dict): (r: seq<Field>)
    ensures d == map[] <==> r == []
  {
    if d == map[] then []
    else
      var k := Least(d.Keys);
      assert |d - {k}| < |d| by { assert (d - {k}).Keys == d.Keys - {k}; }
      [Field(k, d[k])] + Sorted(d - {k})
  }

  function ToDict(fields: seq<Field>): Dict {
    if fields == [] then map[] else ToDict(fields[1..])[fields[0].key := fields[0].value]
  }

  lemma {:induction false} SortedToDict(d: Dict)
    ensures ToDict(Sorted(d)) == d
    decreases |d|
  {
    if d != map[] {
      var k := Least(d.Keys);
      assert |d - {k}| < |d| by { assert (d - {k}).Keys == d.Keys - {k}; }
      SortedToDict(d - {k});
      assert Sorted(d)[1..] == Sorted(d - {k});
      assert (d - {k})[k := d[k]] == d;
    }
  }

  // A dictionary as a JSON object.
  function Object(d: Dict): Json { Obj(Sorted(d)) }

  lemma {:induction false} SortedInOrder(d: Dict)
    ensures forall i, j :: 0 <= i < j < |Sorted(d)| ==> Le(Sorted(d)[i].key, Sorted(d)[j].key)
    ensures forall i :: 0 <= i < |Sorted(d)| ==> Sorted(d)[i].key in d
    decreases |d|
  {
    if d != map[] {
      var k := Least(d.Keys);
      assert |d - {k}| < |d| by { assert (d - {k}).Keys == d.Keys - {k}; }
      SortedInOrder(d - {k});
      LeastIsLeast(d.Keys);
    }
  }

  lemma LeastIsLeast(keys: set<string>)
    requires keys != {}
    ensures IsLeast(keys, Least(keys))
  {
    var k := LeastExists(keys);
  }

  /** The listing shows the dictionary. */
  lemma ObjectFaithful(a: Dict, b: Dict)
    ensures Object(a) == Object(b) <==> a == b
  {
    SortedToDict(a);
    SortedToDict(b);
  }
}
