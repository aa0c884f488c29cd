/**
  Little-endian structures (osbuild/util/lvm2.py:43-111): a layout is a list of
  field types, packed without padding.
 */
module LvmStruct {
  type byte = x: int | 0 <= x < 256

  function Pow256(w: nat): (p: nat)
    ensures p > 0
  {
    if w == 0 then 1 else 256 * Pow256(w - 1)
  }

  function Le(n: nat, w: nat): (b: seq<byte>)
    ensures |b| == w
  {
    if w == 0 then [] else [n % 256] + Le(n / 256, w - 1)
  }

  function FromLe(b: seq<byte>): (n: nat)
    ensures n < Pow256(|b|)
  {
    if b == [] then 0 else b[0] + 256 * FromLe(b[1..])
  }

  lemma {:induction false} FromLeLe(n: nat, w: nat)
    requires n < Pow256(w)
    ensures FromLe(Le(n, w)) == n
  {
    if w > 0 {
      Quotient(n, Pow256(w - 1));
      FromLeLe(n / 256, w - 1);
      assert Le(n, w)[1..] == Le(n / 256, w - 1);
    }
  }

  lemma Quotient(n: nat, p: nat)
    requires n < 256 * p
    ensures n / 256 < p && n == 256 * (n / 256) + n % 256
  {
  }

  // ------------------------------------------------------------------ structures

  datatype CType = U32 | U64 | Bytes(len: nat)

  datatype CValue = Num(n: nat) | Raw(b: seq<byte>)

  function Width(t: CType): nat {
    match t case U32 => 4 case U64 => 8 case Bytes(n) => n
  }

  function Size(layout: seq<CType>): nat {
    if layout == [] then 0 else Width(layout[0]) + Size(layout[1..])
  }

  predicate Fits(t: CType, v: CValue) {
    match t
    case Bytes(n) => v.Raw? && |v.b| == n
    case _ => v.Num? && v.n < Pow256(Width(t))
  }

  predicate Matches(layout: seq<CType>, values: seq<CValue>) {
    |layout| == |values| && forall i :: 0 <= i < |layout| ==> Fits(layout[i], values[i])
  }

  function PackOne(t: CType, v: CValue): (b: seq<byte>)
    requires Fits(t, v)
    ensures |b| == Width(t)
  {
    if t.Bytes? then v.b else Le(v.n, Width(t))
  }

  function UnpackOne(t: CType, b: seq<byte>): (v: CValue)
    requires |b| == Width(t)
    ensures Fits(t, v)
  {
    if t.Bytes? then Raw(b) else Num(FromLe(b))
  }

  function Pack(layout: seq<CType>, values: seq<CValue>): (b: seq<byte>)
    requires Matches(layout, values)
    ensures |b| == Size(layout)
  {
    if layout == [] then [] else PackOne(layout[0], values[0]) + Pack(layout[1..], values[1..])
  }

  // Whatever follows the structure is not looked at.
  function Unpack(layout: seq<CType>, b: seq<byte>): (values: seq<CValue>)
    requires |b| >= Size(layout)
    ensures Matches(layout, values)
  {
    if layout == [] then []
    else [UnpackOne(layout[0], b[..Width(layout[0])])] + Unpack(layout[1..], b[Width(layout[0])..])
  }

  lemma OneReturns(t: CType, v: CValue)
    requires Fits(t, v)
    ensures UnpackOne(t, PackOne(t, v)) == v
  {
    if !t.Bytes? {
      FromLeLe(v.n, Width(t));
    }
  }

  lemma UnpackFirst(layout: seq<CType>, one: seq<byte>, more: seq<byte>)
    requires layout != [] && |one| == Width(layout[0]) && |more| >= Size(layout[1..])
    ensures Unpack(layout, one + more) == [UnpackOne(layout[0], one)] + Unpack(layout[1..], more)
  {
    assert (one + more)[..|one|] == one && (one + more)[|one|..] == more;
  }

  /** Unpacking gives back what was packed, for every layout. */
  lemma {:induction false} PackUnpack(layout: seq<CType>, values: seq<CValue>, rest: seq<byte>)
    requires Matches(layout, values)
    ensures Unpack(layout, Pack(layout, values) + rest) == values
  {
    if layout != [] {
      var t, v := layout[0], values[0];
      var more := Pack(layout[1..], values[1..]) + rest;
      assert Pack(layout, values) + rest == PackOne(t, v) + more;
      UnpackFirst(layout, PackOne(t, v), more);
      OneReturns(t, v);
      PackUnpack(layout[1..], values[1..], rest);
    }
  }
}
