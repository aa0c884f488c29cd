/**
  Writing metadata into its area and reading it again
  (osbuild/util/lvm2.py:322-371, 402-409).
 */
module LvmArea {
  import opened Wrappers
  import opened LvmStruct
  import opened LvmHeader
  import opened LvmText
  import opened LvmRoundTrip

  // UTF-8, as far as it matters: decoding undoes encoding.
  datatype Codec = Codec(encode: string -> seq<byte>, decode: seq<byte> -> Option<string>)

  ghost predicate Lossless(utf8: Codec) {
    forall s :: utf8.decode(utf8.encode(s)) == Some(s)
  }

  const LOC_COMMITTED := 0

  // The locations after writing `raw`.
  function NewLocs(crc: seq<byte> -> u32, locs: seq<Loc>, raw: seq<byte>): (r: seq<Loc>)
    requires |locs| > 0 && |raw| < 0x1_0000_0000_0000_0000
    ensures |r| == |locs| && forall i :: 0 <= i < |r| ==> r[i].offset == locs[i].offset
  {
    locs[LOC_COMMITTED := locs[LOC_COMMITTED].(size := |raw|, checksum := crc(raw))]
  }

  function Patched(content: seq<byte>, at: nat, raw: seq<byte>, start: nat, image: seq<byte>): seq<byte> {
    Overlay(Overlay(content, at, raw), start, image)
  }

  // The file after writing `raw`, and the header `f` with `locs`, both at their places.
  function Written(content: seq<byte>, f: Fields, locs: seq<Loc>, raw: seq<byte>): seq<byte>
    requires |f.magic| == 16 && |locs| > 0
  {
    Patched(content, f.start + locs[LOC_COMMITTED].offset, raw, f.start, Image(f, locs))
  }

  // `read_array`, from the position of `fp`.
  method ReadArray(fp: File) returns (locs: seq<Loc>)
    requires fp.pos <= |fp.content|
    modifies fp
    ensures fp.content == old(fp.content) && locs == ReadLocs(fp.content[old(fp.pos)..])
  {
    ghost var rest := fp.content[fp.pos..];
    locs := [];
    while true
      invariant fp.content == old(fp.content) && fp.pos <= |fp.content| && rest == fp.content[fp.pos..]
      invariant locs + ReadLocs(rest) == ReadLocs(fp.content[old(fp.pos)..])
      decreases |rest|
    {
      var b := fp.Read(24);
      if |b| < 24 {
        return;
      }
      LocPrefix(rest, b);
      if UnpackLoc(b).offset == 0 {
        return;
      }
      locs := locs + [UnpackLoc(b)];
      rest := rest[24..];
    }
  }

  // A write at the end of a file appends.
  method Append(fr: File, raw: seq<byte>)
    requires fr.pos == |fr.content|
    modifies fr
    ensures fr.content == old(fr.content) + raw && fr.pos == |fr.content|
  {
    var n := fr.Write(raw);
    WriteAtEnd(old(fr.content), raw);
  }

  method AppendLocs(fr: File, locs: seq<Loc>)
    requires fr.pos == |fr.content|
    modifies fr
    ensures fr.content == old(fr.content) + PackLocs(locs) && fr.pos == |fr.content|
  {
    var i := 0;
    ghost var done: seq<byte> := [];
    while i < |locs|
      invariant 0 <= i <= |locs|
      invariant fr.content == old(fr.content) + done && done == PackLocs(locs[..i]) && fr.pos == |fr.content|
    {
      var one := PackLoc(locs[i]);
      LocsGrow(locs, i);
      Append(fr, one);
      Regroup(old(fr.content), done, one);
      done := done + one;
      i := i + 1;
    }
    assert locs[..i] == locs;
  }

  // The header in memory, with the checksum it had.
  method Render(data: Fields, locs: seq<Loc>) returns (fr: File)
    requires |data.magic| == 16
    ensures fresh(fr) && fr.content == Image(data, locs)
  {
    fr := new File([]);
    var fields := PackFields(data);
    Append(fr, fields);
    AppendLocs(fr, locs);
    var padding := Zeros(Padding(fr.pos));
    Append(fr, padding);
    assert [] + fields == fields;
  }

  class MDAHeader {
    var data: Fields
    var rawLocns: seq<Loc>

    constructor (data: Fields, rawLocns: seq<Loc>)
      ensures this.data == data && this.rawLocns == rawLocns
    {
      this.data, this.rawLocns := data, rawLocns;
    }

    // The header at the position of `fp`; none when the file is too short.
    static method Read(fp: File) returns (h: Option<MDAHeader>)
      modifies fp
      ensures fp.content == old(fp.content)
      ensures h.Some? <==> old(fp.pos) + 40 <= |fp.content|
      ensures h.Some? ==>
        && fresh(h.value)
        && h.value.data == UnpackFields(fp.content[old(fp.pos)..])
        && h.value.rawLocns == ReadLocs(fp.content[old(fp.pos) + 40..])
    {
      ghost var at := fp.pos;
      var raw := fp.Read(40);
      if |raw| < 40 {
        return None;
      }
      FieldsPrefix(fp.content[at..], raw);
      var locs := ReadArray(fp);
      var header := new MDAHeader(UnpackFields(raw), locs);
      h := Some(header);
    }

    // The text of the committed location.
    method ReadMetadata(fp: File, utf8: Codec, number: Numbers) returns (r: Decoded)
      modifies fp
      ensures fp.content == old(fp.content) && data == old(data) && rawLocns == old(rawLocns)
      ensures r ==
        if rawLocns == [] then Failure(Malformed)
        else
          var loc := rawLocns[LOC_COMMITTED];
          var text := utf8.decode(Slice(fp.content, data.start + loc.offset, loc.size));
          if text.None? then Failure(Malformed) else Decode(number, text.value)
    {
      if rawLocns == [] {
        return Failure(Malformed);
      }
      var loc := rawLocns[LOC_COMMITTED];
      fp.Seek(data.start + loc.offset);
      var raw := fp.Read(loc.size);
      var text := utf8.decode(raw);
      if text.None? {
        return Failure(Malformed);
      }
      r := DecodeData(number, text.value);
    }

    method Write(crc: seq<byte> -> u32, fp: File)
      requires |data.magic| == 16
      modifies this`data, fp
      ensures data == Signed(crc, old(data), rawLocns)
      ensures fp.content == Overlay(old(fp.content), data.start, Image(data, rawLocns))
    {
      var fr := Render(data, rawLocns);
      data := data.(checksum := crc(fr.content[4..]));
      fr.Seek(0);
      var n := fr.Write(PackFields(data));
      HeaderOverlay(old(data), data, rawLocns);
      fp.Seek(data.start);
      n := fp.Write(fr.content);
    }

    method WriteMetadata(crc: seq<byte> -> u32, fp: File, utf8: Codec, md: seq<Field>) returns (ok: bool)
      requires |data.magic| == 16 && |utf8.encode(Encode(md))| < 0x1_0000_0000_0000_0000
      modifies this, fp
      ensures ok == (old(rawLocns) != [])
      ensures !ok ==> fp.content == old(fp.content)
      ensures ok ==>
        var raw := utf8.encode(Encode(md));
        && rawLocns == NewLocs(crc, old(rawLocns), raw) && data == Signed(crc, old(data), rawLocns)
        && fp.content == Written(old(fp.content), data, rawLocns, raw)
    {
      var raw := utf8.encode(Encode(md));
      ok := WriteRaw(crc, fp, raw);
    }

    // The metadata as bytes, then the header that tells their size and checksum.
    method WriteRaw(crc: seq<byte> -> u32, fp: File, raw: seq<byte>) returns (ok: bool)
      requires |data.magic| == 16 && |raw| < 0x1_0000_0000_0000_0000
      modifies this, fp
      ensures ok == (old(rawLocns) != [])
      ensures !ok ==> fp.content == old(fp.content)
      ensures ok ==>
        && rawLocns == NewLocs(crc, old(rawLocns), raw) && data == Signed(crc, old(data), rawLocns)
        && fp.content == Written(old(fp.content), data, rawLocns, raw)
    {
      if rawLocns == [] {
        return false;
      }
      var loc := rawLocns[LOC_COMMITTED];
      fp.Seek(data.start + loc.offset);
      var n := fp.Write(raw);
      assert n == |raw| && fp.content == Overlay(old(fp.content), data.start + loc.offset, raw);
      rawLocns := rawLocns[LOC_COMMITTED := loc.(size := n, checksum := crc(raw))];
      assert rawLocns == NewLocs(crc, old(rawLocns), raw);
      Write(crc, fp);
      ok := true;
    }
  }

  // ---------------------------------------------------------------- small steps

  lemma FieldsPrefix(b: seq<byte>, raw: seq<byte>)
    requires |b| >= 40 && raw == b[..40]
    ensures UnpackFields(b) == UnpackFields(raw)
  {
    Sizes();
    UnpackPrefix(LAYOUT, b, raw);
  }

  lemma LocPrefix(b: seq<byte>, raw: seq<byte>)
    requires |b| >= 24 && raw == b[..24]
    ensures UnpackLoc(b) == UnpackLoc(raw)
  {
    Sizes();
    UnpackPrefix(LOC_LAYOUT, b, raw);
  }

  lemma {:induction false} UnpackPrefix(layout: seq<CType>, b: seq<byte>, raw: seq<byte>)
    requires |raw| >= Size(layout) && raw <= b
    ensures Unpack(layout, b) == Unpack(layout, raw)
  {
    if layout != [] {
      var w := Width(layout[0]);
      assert b[..w] == raw[..w];
      assert raw[w..] <= b[w..];
      UnpackPrefix(layout[1..], b[w..], raw[w..]);
    }
  }

  lemma WriteAtEnd(content: seq<byte>, raw: seq<byte>)
    ensures Overlay(content, |content|, raw) == content + raw
  {
    if raw != [] {
      OverlayAt(content, |content|, raw);
      var r := Overlay(content, |content|, raw);
      assert r == r[..|content|] + r[|content|..|content| + |raw|];
    }
  }

  lemma Regroup(a: seq<byte>, b: seq<byte>, c: seq<byte>)
    ensures (a + b) + c == a + (b + c)
  {
  }

  lemma {:induction false} LocsGrow(locs: seq<Loc>, i: nat)
    requires i < |locs|
    ensures PackLocs(locs[..i + 1]) == PackLocs(locs[..i]) + PackLoc(locs[i])
  {
    if i > 0 {
      LocsGrow(locs[1..], i - 1);
      assert locs[..i + 1][1..] == locs[1..][..i];
      assert locs[..i][1..] == locs[1..][..i - 1];
    } else {
      assert locs[..1][1..] == [];
    }
  }

  lemma OverlayFront(a: seq<byte>, b: seq<byte>, rest: seq<byte>)
    requires |a| == |b| && b != []
    ensures Overlay(a + rest, 0, b) == b + rest
  {
    OverlayAt(a + rest, 0, b);
    var r := Overlay(a + rest, 0, b);
    forall i | 0 <= i < |r| ensures r[i] == (b + rest)[i] {
      if i < |b| {
        assert r[i] == r[0..0 + |b|][i];
      }
    }
  }

  lemma HeaderOverlay(f: Fields, g: Fields, locs: seq<Loc>)
    requires |f.magic| == 16 && |g.magic| == 16
    ensures Overlay(Image(f, locs), 0, PackFields(g)) == Image(g, locs)
  {
    var locsPart, pad := PackLocs(locs), Zeros(Padding(40 + 24 * |locs|));
    Regroup(PackFields(f), locsPart, pad);
    Regroup(PackFields(g), locsPart, pad);
    OverlayFront(PackFields(f), PackFields(g), locsPart + pad);
  }

  // ----------------------------------------------------------------- the theorems

  // What `write_metadata` may be asked for: room for the header, and the metadata
  // behind it, inside the area.
  ghost predicate Placed(f: Fields, locs: seq<Loc>, raw: seq<byte>) {
    && |f.magic| == 16 && 0 < |locs| <= MAX_LOCS && (forall i :: 0 <= i < |locs| ==> locs[i].offset != 0)
    && HEADER_SIZE <= locs[LOC_COMMITTED].offset && locs[LOC_COMMITTED].offset + |raw| <= f.size
    && raw != []
  }

  // In `c` the bytes `image` are at `start` and `raw` at `at`; the rest is that of
  // `content`.
  ghost predicate Lies(c: seq<byte>, content: seq<byte>, start: nat, image: seq<byte>, at: nat, raw: seq<byte>) {
    && |c| >= start + |image| && |c| >= at + |raw| && |c| >= |content|
    && c[start..start + |image|] == image && c[at..at + |raw|] == raw
    && forall i :: 0 <= i < |content| && !(start <= i < start + |image|) && !(at <= i < at + |raw|) ==>
         c[i] == content[i]
  }

  /** Outside the header and the metadata the file is unchanged; inside they stand,
      whatever the bytes of the header are. */
  lemma WrittenRanges(content: seq<byte>, f: Fields, locs: seq<Loc>, raw: seq<byte>, image: seq<byte>)
    requires Placed(f, locs, raw) && |image| == HEADER_SIZE
    ensures var at := f.start + locs[LOC_COMMITTED].offset;
      Lies(Patched(content, at, raw, f.start, image), content, f.start, image, at, raw)
  {
    TwoWrites(content, f.start + locs[LOC_COMMITTED].offset, raw, f.start, image);
  }

  // Two writes to separate ranges, the second before the first.
  lemma TwoWrites(content: seq<byte>, at: nat, raw: seq<byte>, start: nat, image: seq<byte>)
    requires raw != [] && image != [] && start + |image| <= at
    ensures Lies(Patched(content, at, raw, start, image), content, start, image, at, raw)
  {
    var c1 := Overlay(content, at, raw);
    OverlayAt(content, at, raw);
    OverlayAt(c1, start, image);
    var c := Overlay(c1, start, image);
    assert c[at..at + |raw|] == c1[at..at + |raw|];
  }

  // The area described by `f` in `c` starts with the header `f` and `locs`, the checksum
  // that of its own bytes, and has `raw` at the committed location.
  ghost predicate Holds(crc: seq<byte> -> u32, c: seq<byte>, f: Fields, locs: seq<Loc>, raw: seq<byte>)
    requires |locs| > 0
  {
    var area := Slice(c, f.start, f.size);
    && |area| >= HEADER_SIZE && UnpackFields(area) == f && ReadLocs(area[40..]) == locs
    && f.checksum == crc(area[4..HEADER_SIZE])
    && Slice(c, f.start + locs[LOC_COMMITTED].offset, |raw|) == raw
  }

  // Whatever follows, these bytes are read as `f` and `locs`.
  ghost predicate ReadsAs(image: seq<byte>, f: Fields, locs: seq<Loc>)
    requires |image| == HEADER_SIZE
  {
    forall rest :: ReadsBefore(image, rest, f, locs)
  }

  ghost predicate ReadsBefore(image: seq<byte>, rest: seq<byte>, f: Fields, locs: seq<Loc>)
    requires |image| == HEADER_SIZE
  {
    UnpackFields(image + rest) == f && ReadLocs((image + rest)[40..]) == locs
  }

  lemma ImageReadsAs(f: Fields, locs: seq<Loc>)
    requires |f.magic| == 16 && |locs| <= MAX_LOCS && forall i :: 0 <= i < |locs| ==> locs[i].offset != 0
    ensures |Image(f, locs)| == HEADER_SIZE && ReadsAs(Image(f, locs), f, locs)
  {
    forall rest ensures ReadsBefore(Image(f, locs), rest, f, locs) {
      ImageReturns(f, locs, rest);
    }
  }

  lemma HoldsImage(crc: seq<byte> -> u32, content: seq<byte>, f: Fields, locs: seq<Loc>, raw: seq<byte>,
                   image: seq<byte>)
    requires Placed(f, locs, raw) && |image| == HEADER_SIZE && ReadsAs(image, f, locs) && f.checksum == crc(image[4..])
    ensures Holds(crc, Patched(content, f.start + locs[LOC_COMMITTED].offset, raw, f.start, image), f, locs, raw)
  {
    WrittenRanges(content, f, locs, raw, image);
    var at := f.start + locs[LOC_COMMITTED].offset;
    var c := Patched(content, at, raw, f.start, image);
    AreaOf(c, content, f.start, f.size, image, at, raw);
    assert ReadsBefore(image, Slice(c, f.start, f.size)[HEADER_SIZE..], f, locs);
  }

  /** Reading the area again gives the header that was written, checksum included,
      its locations, and the bytes of the metadata. */
  lemma AreaReturns(crc: seq<byte> -> u32, content: seq<byte>, f: Fields, locs: seq<Loc>, raw: seq<byte>)
    requires Placed(f, locs, raw) && f.checksum == crc(Image(f, locs)[4..])
    ensures Holds(crc, Written(content, f, locs, raw), f, locs, raw)
  {
    ImageReadsAs(f, locs);
    var c, image := Written(content, f, locs, raw), Image(f, locs);
    HoldsImage(crc, content, f, locs, raw, image);
    assert c == Patched(content, f.start + locs[LOC_COMMITTED].offset, raw, f.start, image);
  }

  // The area starts with the image.
  lemma AreaOf(c: seq<byte>, content: seq<byte>, start: nat, size: nat, image: seq<byte>, at: nat, raw: seq<byte>)
    requires Lies(c, content, start, image, at, raw) && |image| == HEADER_SIZE && start + HEADER_SIZE <= at
    requires raw != [] && at + |raw| <= start + size
    ensures var area := Slice(c, start, size);
      |area| >= HEADER_SIZE && area == image + area[HEADER_SIZE..] && area[4..HEADER_SIZE] == image[4..]
    ensures Slice(c, at, |raw|) == raw
  {
    var area := Slice(c, start, size);
    assert area[..HEADER_SIZE] == c[start..start + HEADER_SIZE];
    assert area[4..HEADER_SIZE] == area[..HEADER_SIZE][4..];
  }

  // The first half: write, and what the area then holds.
  method WriteArea(crc: seq<byte> -> u32, utf8: Codec, fp: File, h: MDAHeader, md: seq<Field>, ghost raw: seq<byte>)
    requires raw == utf8.encode(Encode(md)) && |raw| < 0x1_0000_0000_0000_0000 && Placed(h.data, h.rawLocns, raw)
    modifies h, fp
    ensures h.rawLocns == NewLocs(crc, old(h.rawLocns), raw) && h.rawLocns != []
    ensures h.data == Signed(crc, old(h.data), h.rawLocns)
    ensures fp.content == Written(old(fp.content), h.data, h.rawLocns, raw)
    ensures Holds(crc, fp.content, h.data, h.rawLocns, raw) && h.rawLocns[LOC_COMMITTED].size == |raw|
  {
    ghost var f, content := h.data, fp.content;
    var ok := h.WriteMetadata(crc, fp, utf8, md);
    assert Placed(h.data, h.rawLocns, raw);
    ChecksumOfItself(crc, f, h.rawLocns);
    AreaReturns(crc, content, h.data, h.rawLocns, raw);
  }

  // Open the area as the disk does: read it whole, then its header.
  method Reopen(fp: File, start: nat, size: nat) returns (h: Option<MDAHeader>)
    modifies fp
    ensures fp.content == old(fp.content)
    ensures h.Some? <==> |Slice(fp.content, start, size)| >= 40
    ensures h.Some? ==>
      && fresh(h.value)
      && h.value.data == UnpackFields(Slice(fp.content, start, size))
      && h.value.rawLocns == ReadLocs(Slice(fp.content, start, size)[40..])
  {
    fp.Seek(start);
    var bytes := fp.Read(size);
    var area := new File(bytes);
    assert area.content[0..] == area.content;
    h := MDAHeader.Read(area);
  }

  lemma TextReturns(utf8: Codec, number: Numbers, md: seq<Field>, raw: seq<byte>)
    requires Lossless(utf8) && ReadsInts(number) && Printable(Section(md)) && raw == utf8.encode(Encode(md))
    ensures utf8.decode(raw).Some? && Decode(number, utf8.decode(raw).value) == Success((FirstKey(md), md))
  {
    RoundTrip(number, md);
  }

  // The second half: the text at the committed location.
  method Reread(utf8: Codec, number: Numbers, fp: File, h: MDAHeader, md: seq<Field>, ghost raw: seq<byte>)
    returns (r: Decoded)
    requires Lossless(utf8) && ReadsInts(number) && Printable(Section(md))
    requires raw == utf8.encode(Encode(md)) && h.rawLocns != []
    requires Slice(fp.content, h.data.start + h.rawLocns[LOC_COMMITTED].offset, h.rawLocns[LOC_COMMITTED].size) == raw
    modifies fp
    ensures fp.content == old(fp.content) && r == Success((FirstKey(md), md))
  {
    TextReturns(utf8, number, md, raw);
    r := h.ReadMetadata(fp, utf8, number);
  }

  // Open the area and read the text at its committed location.
  method ReadBack(crc: seq<byte> -> u32, utf8: Codec, number: Numbers, fp: File, md: seq<Field>, f: Fields,
                  ghost locs: seq<Loc>, ghost raw: seq<byte>)
    returns (h: Option<MDAHeader>, r: Decoded)
    requires Lossless(utf8) && ReadsInts(number) && Printable(Section(md)) && raw == utf8.encode(Encode(md))
    requires |locs| > 0 && locs[LOC_COMMITTED].size == |raw| && Holds(crc, fp.content, f, locs, raw)
    modifies fp
    ensures r == Success((FirstKey(md), md)) && fp.content == old(fp.content)
    ensures h.Some? && h.value.data == f && h.value.rawLocns == locs
  {
    h := Reopen(fp, f.start, f.size);
    r := Reread(utf8, number, fp, h.value, md, raw);
  }

  /** Written metadata is read back: the same name, the same nested value, the header
      with its new checksum and the same locations but for size and checksum. */
  method WriteThenRead(crc: seq<byte> -> u32, utf8: Codec, number: Numbers, fp: File, h: MDAHeader, md: seq<Field>,
                       ghost raw: seq<byte>)
    returns (h': Option<MDAHeader>, r: Decoded)
    requires Lossless(utf8) && ReadsInts(number) && Printable(Section(md))
    requires raw == utf8.encode(Encode(md)) && |raw| < 0x1_0000_0000_0000_0000
    requires Placed(h.data, h.rawLocns, raw)
    modifies h, fp
    ensures r == Success((FirstKey(md), md))
    ensures h'.Some? && h'.value.data == h.data && h'.value.rawLocns == h.rawLocns
    ensures h.rawLocns == NewLocs(crc, old(h.rawLocns), raw) && h.data == Signed(crc, old(h.data), h.rawLocns)
    ensures fp.content == Written(old(fp.content), h.data, h.rawLocns, raw)
  {
    WriteArea(crc, utf8, fp, h, md, raw);
    h', r := ReadBack(crc, utf8, number, fp, md, h.data, h.rawLocns, raw);
  }
}
