/**
  The metadata area of a physical volume (osbuild/util/lvm2.py:64-88, 262-371): a
  512-byte header with a checksum over itself, a list of locations ended by a zero
  offset, and the metadata text at the first location.

  The checksum function is a parameter; so is the encoding of text as bytes.
 */
module LvmHeader {
  import opened Wrappers
  import opened LvmStruct

  const HEADER_SIZE := 512
  const MAX_LOCS := 19

  type u32 = x: int | 0 <= x < 0x1_0000_0000
  type u64 = x: int | 0 <= x < 0x1_0000_0000_0000_0000

  datatype Loc = Loc(offset: u64, size: u64, checksum: u32, flags: u32)

  datatype Fields = Fields(checksum: u32, magic: seq<byte>, version: u32, start: u64, size: u64)

  const LOC_LAYOUT := [U64, U64, U32, U32]
  const LAYOUT := [U32, Bytes(16), U32, U64, U64]

  function LocValues(l: Loc): seq<CValue> { [Num(l.offset), Num(l.size), Num(l.checksum), Num(l.flags)] }

  function Values(f: Fields): seq<CValue> { [Num(f.checksum), Raw(f.magic), Num(f.version), Num(f.start), Num(f.size)] }

  lemma Powers()
    ensures Pow256(4) == 0x1_0000_0000 && Pow256(8) == 0x1_0000_0000_0000_0000
  {
    assert Pow256(2) == 65536;
    assert Pow256(4) == 65536 * 65536;
    assert Pow256(6) == 65536 * 65536 * 65536;
  }

  lemma Sizes()
    ensures Size(LOC_LAYOUT) == 24 && Size(LAYOUT) == 40
  {
    assert LOC_LAYOUT[1..] == [U64, U32, U32];
    assert LOC_LAYOUT[1..][1..] == [U32, U32] && LOC_LAYOUT[1..][1..][1..] == [U32];
    assert LOC_LAYOUT[1..][1..][1..][1..] == [];
    assert LAYOUT[1..] == [Bytes(16), U32, U64, U64];
    assert LAYOUT[1..][1..] == [U32, U64, U64] && LAYOUT[1..][1..][1..] == [U64, U64];
    assert LAYOUT[1..][1..][1..][1..] == [U64] && LAYOUT[1..][1..][1..][1..][1..] == [];
  }

  function PackLoc(l: Loc): (b: seq<byte>)
    ensures |b| == 24
  {
    Powers();
    Sizes();
    Pack(LOC_LAYOUT, LocValues(l))
  }

  function PackFields(f: Fields): (b: seq<byte>)
    requires |f.magic| == 16
    ensures |b| == 40
  {
    Powers();
    Sizes();
    Pack(LAYOUT, Values(f))
  }

  function UnpackLoc(b: seq<byte>): Loc
    requires |b| >= 24
  {
    Powers();
    Sizes();
    var v := Unpack(LOC_LAYOUT, b);
    assert Fits(U64, v[0]) && Fits(U64, v[1]) && Fits(U32, v[2]) && Fits(U32, v[3]);
    Loc(v[0].n, v[1].n, v[2].n, v[3].n)
  }

  lemma LocReturns(l: Loc, rest: seq<byte>)
    ensures UnpackLoc(PackLoc(l) + rest) == l
  {
    Powers();
    Sizes();
    PackUnpack(LOC_LAYOUT, LocValues(l), rest);
  }

  function UnpackFields(b: seq<byte>): (f: Fields)
    requires |b| >= 40
    ensures |f.magic| == 16
  {
    Powers();
    Sizes();
    var v := Unpack(LAYOUT, b);
    assert Fits(U32, v[0]) && Fits(Bytes(16), v[1]) && Fits(U32, v[2]) && Fits(U64, v[3]) && Fits(U64, v[4]);
    Fields(v[0].n, v[1].b, v[2].n, v[3].n, v[4].n)
  }

  lemma FieldsReturn(f: Fields, rest: seq<byte>)
    requires |f.magic| == 16
    ensures UnpackFields(PackFields(f) + rest) == f
  {
    Powers();
    Sizes();
    PackUnpack(LAYOUT, Values(f), rest);
  }

  // The checksum comes first, in four bytes.
  lemma OnlyChecksumDiffers(f: Fields, c: u32)
    requires |f.magic| == 16
    ensures PackFields(f)[4..] == PackFields(f.(checksum := c))[4..]
  {
    Powers();
    Sizes();
    var a, b := Values(f), Values(f.(checksum := c));
    assert a[1..] == b[1..];
  }

  // ------------------------------------------------------------------- locations

  function PackLocs(locs: seq<Loc>): (b: seq<byte>)
    ensures |b| == 24 * |locs|
  {
    if locs == [] then [] else PackLoc(locs[0]) + PackLocs(locs[1..])
  }

  // `read_array`: up to a zero offset, or the end of the data.
  function ReadLocs(b: seq<byte>): seq<Loc>
    decreases |b|
  {
    if |b| < 24 || UnpackLoc(b).offset == 0 then [] else [UnpackLoc(b)] + ReadLocs(b[24..])
  }

  predicate Ends(b: seq<byte>) { |b| < 24 || UnpackLoc(b).offset == 0 }

  lemma {:induction false} LocsReturn(locs: seq<Loc>, rest: seq<byte>)
    requires forall i :: 0 <= i < |locs| ==> locs[i].offset != 0
    requires Ends(rest)
    ensures ReadLocs(PackLocs(locs) + rest) == locs
  {
    if locs == [] {
      assert PackLocs(locs) + rest == rest;
    } else {
      var more := PackLocs(locs[1..]) + rest;
      assert PackLocs(locs) + rest == PackLoc(locs[0]) + more;
      assert (PackLoc(locs[0]) + more)[24..] == more;
      LocReturns(locs[0], more);
      LocsReturn(locs[1..], rest);
    }
  }

  function Zeros(n: nat): (b: seq<byte>)
    ensures |b| == n && forall i :: 0 <= i < n ==> b[i] == 0
  {
    seq(n, i => 0)
  }

  lemma {:induction false} FromLeZeros(b: seq<byte>)
    requires forall i :: 0 <= i < |b| ==> b[i] == 0
    ensures FromLe(b) == 0
  {
    if b != [] {
      FromLeZeros(b[1..]);
    }
  }

  // Eight zero bytes end the list, whatever comes after.
  lemma ZerosEnd(n: nat, rest: seq<byte>)
    requires n >= 8
    ensures Ends(Zeros(n) + rest)
  {
    var b := Zeros(n) + rest;
    if |b| >= 24 {
      Sizes();
      FromLeZeros(b[..8]);
      assert LOC_LAYOUT[0] == U64;
    }
  }

  // ----------------------------------------------------------------- the header

  function Padding(n: nat): nat { if n < HEADER_SIZE then HEADER_SIZE - n else 0 }

  // The header as bytes; longer than 512 only with more than 19 locations.
  function Image(f: Fields, locs: seq<Loc>): (b: seq<byte>)
    requires |f.magic| == 16
    ensures |locs| <= MAX_LOCS ==> |b| == HEADER_SIZE
    ensures |b| >= 40
  {
    PackFields(f) + PackLocs(locs) + Zeros(Padding(40 + 24 * |locs|))
  }

  function Checksum(crc: seq<byte> -> u32, f: Fields, locs: seq<Loc>): u32
    requires |f.magic| == 16
  {
    crc(Image(f, locs)[4..])
  }

  // The header with the checksum it is written with.
  function Signed(crc: seq<byte> -> u32, f: Fields, locs: seq<Loc>): (r: Fields)
    requires |f.magic| == 16
    ensures |r.magic| == 16
  {
    f.(checksum := Checksum(crc, f, locs))
  }

  /** The stored checksum is the one of bytes 4 to 512 of the header it is stored in. */
  lemma ChecksumOfItself(crc: seq<byte> -> u32, f: Fields, locs: seq<Loc>)
    requires |f.magic| == 16
    ensures Signed(crc, f, locs).checksum == crc(Image(Signed(crc, f, locs), locs)[4..])
  {
    var s := Signed(crc, f, locs);
    OnlyChecksumDiffers(f, s.checksum);
    var tail := PackLocs(locs) + Zeros(Padding(40 + 24 * |locs|));
    assert Image(f, locs) == PackFields(f) + tail && Image(s, locs) == PackFields(s) + tail;
    SameTail(PackFields(f), PackFields(s), tail);
  }

  lemma SameTail(a: seq<byte>, b: seq<byte>, tail: seq<byte>)
    requires |a| == |b| >= 4 && a[4..] == b[4..]
    ensures (a + tail)[4..] == (b + tail)[4..]
  {
    assert (a + tail)[4..] == a[4..] + tail;
    assert (b + tail)[4..] == b[4..] + tail;
  }

  lemma Regroup4(a: seq<byte>, b: seq<byte>, c: seq<byte>, d: seq<byte>)
    ensures a + b + c + d == a + (b + (c + d))
  {
  }

  lemma HeadReturns(f: Fields, more: seq<byte>)
    requires |f.magic| == 16
    ensures |PackFields(f) + more| >= 40 && UnpackFields(PackFields(f) + more) == f
    ensures (PackFields(f) + more)[40..] == more
  {
    FieldsReturn(f, more);
  }

  /** Reading a written header gives back its fields and locations. */
  lemma ImageReturns(f: Fields, locs: seq<Loc>, rest: seq<byte>)
    requires |f.magic| == 16 && |locs| <= MAX_LOCS && forall i :: 0 <= i < |locs| ==> locs[i].offset != 0
    ensures |Image(f, locs) + rest| >= 40 && UnpackFields(Image(f, locs) + rest) == f
    ensures ReadLocs((Image(f, locs) + rest)[40..]) == locs
  {
    var zeros := Zeros(Padding(40 + 24 * |locs|));
    Regroup4(PackFields(f), PackLocs(locs), zeros, rest);
    HeadReturns(f, PackLocs(locs) + (zeros + rest));
    ZerosEnd(Padding(40 + 24 * |locs|), rest);
    LocsReturn(locs, zeros + rest);
  }

  // ------------------------------------------------------------------------ files

  // `raw` written over `content` at `pos`; a gap is filled with zeros.
  function Overlay(content: seq<byte>, pos: nat, raw: seq<byte>): (r: seq<byte>)
  {
    if raw == [] then content
    else PutByte(Overlay(content, pos, raw[..|raw| - 1]), pos + |raw| - 1, raw[|raw| - 1])
  }

  // A gap is filled with zeros.
  function PutByte(content: seq<byte>, pos: nat, b: byte): seq<byte> {
    if pos < |content| then content[pos := b] else content + Zeros(pos - |content|) + [b]
  }

  lemma {:induction false} OverlayAt(content: seq<byte>, pos: nat, raw: seq<byte>)
    requires raw != []
    ensures var r := Overlay(content, pos, raw);
      && |r| == (if |content| < pos + |raw| then pos + |raw| else |content|)
      && r[pos..pos + |raw|] == raw
      && (forall i :: 0 <= i < |r| && !(pos <= i < pos + |raw|) ==> r[i] == (if i < |content| then content[i] else 0))
  {
    var n := |raw| - 1;
    if n > 0 {
      OverlayAt(content, pos, raw[..n]);
    } else {
      assert raw[..n] == [];
    }
    var before, r := Overlay(content, pos, raw[..n]), Overlay(content, pos, raw);
    assert r == PutByte(before, pos + n, raw[n]);
    forall k | 0 <= k < |raw| ensures r[pos + k] == raw[k] {
      if k < n {
        assert before[pos + k] == before[pos..pos + n][k] == raw[k];
      }
    }
  }

  // A file, or an in-memory one.
  class File {
    var content: seq<byte>
    var pos: nat

    constructor (content: seq<byte>)
      ensures this.content == content && pos == 0
    {
      this.content, pos := content, 0;
    }

    method Seek(p: nat)
      modifies this`pos
      ensures pos == p
    {
      pos := p;
    }

    method Write(raw: seq<byte>) returns (n: nat)
      modifies this
      ensures content == Overlay(old(content), old(pos), raw) && pos == old(pos) + |raw| && n == |raw|
    {
      content := Overlay(content, pos, raw);
      pos := pos + |raw|;
      n := |raw|;
    }

    method Read(n: nat) returns (b: seq<byte>)
      modifies this`pos
      ensures b == Slice(content, old(pos), n) && pos == old(pos) + |b|
    {
      b := Slice(content, pos, n);
      pos := pos + |b|;
    }
  }

  // At most `n` bytes from `pos`.
  function Slice(content: seq<byte>, pos: nat, n: nat): (b: seq<byte>)
    ensures |b| <= n
  {
    if pos >= |content| then [] else content[pos..if pos + n <= |content| then pos + n else |content|]
  }
}
