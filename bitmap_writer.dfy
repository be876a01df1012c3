// The BMP file that IGLU/bitmap/BitmapWriter.cpp writes: a packed
// BITMAPFILEHEADER (14 bytes) and BITMAPINFOHEADER (40 bytes), little-endian,
// followed by width*height*3 bytes of 24-bit pixels. The file itself is the
// byte sequence produced; opening it is an oracle.

module BitmapWriter {
  import opened IglCore

  type byte = b: int | 0 <= b < 256

  /** 256^n */
  function Pow256(n: nat): (p: nat)
    ensures p >= 1
  {
    if n == 0 then 1 else 256 * Pow256(n - 1)
  }

  /** The n-byte little-endian encoding of value. */
  function EncodeLE(n: nat, value: nat): (bs: seq<byte>)
    ensures |bs| == n
  {
    if n == 0 then [] else [value % 256] + EncodeLE(n - 1, value / 256)
  }

  function DecodeLE(bs: seq<byte>): (value: nat)
    ensures value < Pow256(|bs|)
  {
    if bs == [] then 0 else bs[0] + 256 * DecodeLE(bs[1..])
  }

  lemma {:induction false} DecodeEncodeLE(n: nat, value: nat)
    requires value < Pow256(n)
    ensures DecodeLE(EncodeLE(n, value)) == value
  {
    if n > 0 {
      var bs := EncodeLE(n, value);
      assert bs[1..] == EncodeLE(n - 1, value / 256);
      DecodeEncodeLE(n - 1, value / 256);
    }
  }

  /** One header field: its width in bytes and its unsigned bit pattern. */
  datatype Field = Field(width: nat, value: nat)

  predicate FieldFits(f: Field) {
    f.value < Pow256(f.width)
  }

  function Widths(fields: seq<Field>): (ws: seq<nat>)
    ensures |ws| == |fields|
  {
    if fields == [] then [] else [fields[0].width] + Widths(fields[1..])
  }

  function Values(fields: seq<Field>): (vs: seq<nat>)
    ensures |vs| == |fields|
  {
    if fields == [] then [] else [fields[0].value] + Values(fields[1..])
  }

  function Sum(ws: seq<nat>): nat {
    if ws == [] then 0 else ws[0] + Sum(ws[1..])
  }

  /** The fields written back to back with no padding (__attribute__((packed))). */
  function SerializeFields(fields: seq<Field>): (bs: seq<byte>)
  {
    if fields == [] then [] else EncodeLE(fields[0].width, fields[0].value) + SerializeFields(fields[1..])
  }

  lemma {:induction false} SerializedLength(fields: seq<Field>)
    ensures |SerializeFields(fields)| == Sum(Widths(fields))
  {
    if fields != [] {
      SerializedLength(fields[1..]);
    }
  }

  /** Reads the fields of the given widths back from the front of bs. */
  function ParseFields(ws: seq<nat>, bs: seq<byte>): (vs: seq<nat>)
    requires |bs| >= Sum(ws)
    ensures |vs| == |ws|
  {
    if ws == [] then [] else [DecodeLE(bs[..ws[0]])] + ParseFields(ws[1..], bs[ws[0]..])
  }

  lemma {:induction false} ParseSerializeFields(fields: seq<Field>, tail: seq<byte>)
    requires forall i :: 0 <= i < |fields| ==> FieldFits(fields[i])
    ensures |SerializeFields(fields) + tail| >= Sum(Widths(fields))
    ensures ParseFields(Widths(fields), SerializeFields(fields) + tail) == Values(fields)
  {
    SerializedLength(fields);
    if fields != [] {
      var f := fields[0];
      var rest := SerializeFields(fields[1..]);
      var bs := SerializeFields(fields) + tail;
      assert bs == EncodeLE(f.width, f.value) + (rest + tail);
      assert bs[..f.width] == EncodeLE(f.width, f.value);
      assert bs[f.width..] == rest + tail;
      assert FieldFits(fields[0]);
      DecodeEncodeLE(f.width, f.value);
      assert Widths(fields)[1..] == Widths(fields[1..]);
      ParseSerializeFields(fields[1..], tail);
    }
  }

  /** The signed 32-bit integer whose bit pattern is u (static_cast<int32_t> of a uint32_t). */
  function Int32FromBits(u: nat): (i: int)
    requires u < UINT32_LIMIT
    ensures -0x8000_0000 <= i < 0x8000_0000
  {
    if u >= 0x8000_0000 then u - UINT32_LIMIT else u
  }

  function Int32Bits(i: int): (u: nat)
    requires -0x8000_0000 <= i < 0x8000_0000
    ensures u < UINT32_LIMIT
  {
    if i < 0 then i + UINT32_LIMIT else i
  }

  datatype BMPHeader = BMPHeader(
    // bitmap file header
    signature: nat, fileSize: nat, reserved1: nat, reserved2: nat, dataOffset: nat,
    // DIB header
    headerSize: nat, imageWidth: int, imageHeight: int, colorPlanes: nat, bitsPerPixel: nat,
    compression: nat, imageSizeBytes: nat, horizontalResolution: int, verticalResolution: int,
    numColors: nat, importantColors: nat)

  predicate IsInt32(i: int) { -0x8000_0000 <= i < 0x8000_0000 }

  /** Every field holds a value of its C type (uint16_t, uint32_t, int32_t). */
  predicate HeaderFits(h: BMPHeader) {
    && h.signature < UINT16_LIMIT && h.fileSize < UINT32_LIMIT && h.reserved1 < UINT16_LIMIT
    && h.reserved2 < UINT16_LIMIT && h.dataOffset < UINT32_LIMIT && h.headerSize < UINT32_LIMIT
    && IsInt32(h.imageWidth) && IsInt32(h.imageHeight) && h.colorPlanes < UINT16_LIMIT
    && h.bitsPerPixel < UINT16_LIMIT && h.compression < UINT32_LIMIT && h.imageSizeBytes < UINT32_LIMIT
    && IsInt32(h.horizontalResolution) && IsInt32(h.verticalResolution)
    && h.numColors < UINT32_LIMIT && h.importantColors < UINT32_LIMIT
  }

  /** The byte widths of the sixteen fields, in declaration order. */
  const FileHeaderLayout: seq<nat> := [2, 4, 2, 2, 4]
  const InfoHeaderLayoutA: seq<nat> := [4, 4, 4, 2, 2]
  const InfoHeaderLayoutB: seq<nat> := [4, 4, 4, 4, 4, 4]
  const Layout: seq<nat> := FileHeaderLayout + InfoHeaderLayoutA + InfoHeaderLayoutB

  /** sizeof(BMPHeader) of the packed struct. */
  const HeaderSize: nat := 54

  lemma {:induction false} SumConcat(a: seq<nat>, b: seq<nat>)
    ensures Sum(a + b) == Sum(a) + Sum(b)
  {
    if a == [] {
      assert a + b == b;
    } else {
      assert (a + b)[0] == a[0];
      assert (a + b)[1..] == a[1..] + b;
      SumConcat(a[1..], b);
    }
  }

  /** The file header is 14 bytes and the DIB header 40, 54 in all. */
  lemma LayoutSize()
    ensures |Layout| == 16
    ensures Sum(Layout) == HeaderSize
    ensures Sum(FileHeaderLayout) == 14 && Sum(InfoHeaderLayoutA + InfoHeaderLayoutB) == 40
  {
    assert Sum(FileHeaderLayout) == 14;
    assert Sum(InfoHeaderLayoutA) == 16;
    assert Sum(InfoHeaderLayoutB) == 24;
    SumConcat(FileHeaderLayout, InfoHeaderLayoutA);
    SumConcat(FileHeaderLayout + InfoHeaderLayoutA, InfoHeaderLayoutB);
    SumConcat(InfoHeaderLayoutA, InfoHeaderLayoutB);
  }

  function HeaderFields(h: BMPHeader): (fs: seq<Field>)
    requires HeaderFits(h)
  {
    [Field(2, h.signature), Field(4, h.fileSize), Field(2, h.reserved1), Field(2, h.reserved2),
     Field(4, h.dataOffset), Field(4, h.headerSize), Field(4, Int32Bits(h.imageWidth)),
     Field(4, Int32Bits(h.imageHeight)), Field(2, h.colorPlanes), Field(2, h.bitsPerPixel),
     Field(4, h.compression), Field(4, h.imageSizeBytes), Field(4, Int32Bits(h.horizontalResolution)),
     Field(4, Int32Bits(h.verticalResolution)), Field(4, h.numColors), Field(4, h.importantColors)]
  }

  function SerializeHeader(h: BMPHeader): (bs: seq<byte>)
    requires HeaderFits(h)
  {
    SerializeFields(HeaderFields(h))
  }

  /** Reads a header back from the first 54 bytes of a file. */
  function ParseHeader(bs: seq<byte>): (h: BMPHeader)
    requires |bs| >= HeaderSize
  {
    LayoutSize();
    var v := ParseFields(Layout, bs);
    assert forall i :: 0 <= i < 16 ==> v[i] < Pow256(Layout[i]) by {
      ParsedFieldsFit(Layout, bs);
    }
    assert Pow256(4) == UINT32_LIMIT;
    BMPHeader(v[0], v[1], v[2], v[3], v[4], v[5], Int32FromBits(v[6]), Int32FromBits(v[7]), v[8], v[9],
              v[10], v[11], Int32FromBits(v[12]), Int32FromBits(v[13]), v[14], v[15])
  }

  lemma {:induction false} ParsedFieldsFit(ws: seq<nat>, bs: seq<byte>)
    requires |bs| >= Sum(ws)
    ensures forall i :: 0 <= i < |ws| ==> ParseFields(ws, bs)[i] < Pow256(ws[i])
  {
    if ws != [] {
      ParsedFieldsFit(ws[1..], bs[ws[0]..]);
    }
  }

  /** The header read back from any file that starts with it is the header written. */
  lemma HeaderRoundTrip(h: BMPHeader, tail: seq<byte>)
    requires HeaderFits(h)
    ensures |SerializeHeader(h)| == HeaderSize
    ensures ParseHeader(SerializeHeader(h) + tail) == h
  {
    var fs := HeaderFields(h);
    assert Pow256(2) == UINT16_LIMIT && Pow256(4) == UINT32_LIMIT;
    assert forall i :: 0 <= i < |fs| ==> FieldFits(fs[i]);
    assert Widths(fs) == Layout by {
      WidthsOfHeader(h);
    }
    ParseSerializeFields(fs, tail);
    SerializedLength(fs);
    LayoutSize();
    var v := Values(fs);
    ValuesOfHeader(h);
  }

  lemma WidthsOfHeader(h: BMPHeader)
    requires HeaderFits(h)
    ensures Widths(HeaderFields(h)) == Layout
  {
    var fs := HeaderFields(h);
    var ws := Widths(fs);
    forall i | 0 <= i < 16 ensures ws[i] == fs[i].width {
      WidthAt(fs, i);
    }
  }

  lemma {:induction false} WidthAt(fs: seq<Field>, i: nat)
    requires i < |fs|
    ensures Widths(fs)[i] == fs[i].width && Values(fs)[i] == fs[i].value
  {
    if i > 0 {
      WidthAt(fs[1..], i - 1);
    }
  }

  lemma ValuesOfHeader(h: BMPHeader)
    requires HeaderFits(h)
    ensures Values(HeaderFields(h)) == [h.signature, h.fileSize, h.reserved1, h.reserved2, h.dataOffset,
      h.headerSize, Int32Bits(h.imageWidth), Int32Bits(h.imageHeight), h.colorPlanes, h.bitsPerPixel,
      h.compression, h.imageSizeBytes, Int32Bits(h.horizontalResolution), Int32Bits(h.verticalResolution),
      h.numColors, h.importantColors]
  {
    var fs := HeaderFields(h);
    forall i | 0 <= i < 16 ensures Values(fs)[i] == fs[i].value {
      WidthAt(fs, i);
    }
  }

  /** imageSize = width * height * 3, computed in uint32_t. */
  function ImageSize(width: nat, height: nat): (n: nat)
    ensures n < UINT32_LIMIT
    ensures width * height * 3 < UINT32_LIMIT ==> n == width * height * 3
  {
    Wrap(width * height * 3, UINT32_LIMIT)
  }

  /** The header writeBitmap fills in: defaults except the four size fields. */
  function MakeHeader(width: nat, height: nat): (h: BMPHeader)
    requires width < UINT32_LIMIT && height < UINT32_LIMIT
    ensures HeaderFits(h)
    ensures h.signature == 0x4D42 && h.dataOffset == HeaderSize && h.headerSize == 40
    ensures h.colorPlanes == 1 && h.bitsPerPixel == 24 && h.compression == 0
    ensures h.imageSizeBytes == ImageSize(width, height)
    ensures h.fileSize == Wrap(HeaderSize + ImageSize(width, height), UINT32_LIMIT)
    ensures Int32Bits(h.imageWidth) == width && Int32Bits(h.imageHeight) == height
    ensures h.reserved1 == 0 && h.reserved2 == 0 && h.numColors == 0 && h.importantColors == 0
    ensures h.horizontalResolution == 0 && h.verticalResolution == 0
  {
    var imageSize := ImageSize(width, height);
    BMPHeader(0x4D42, Wrap(HeaderSize + imageSize, UINT32_LIMIT), 0, 0, HeaderSize,
              40, Int32FromBits(width), Int32FromBits(height), 1, 24,
              0, imageSize, 0, 0, 0, 0)
  }

  /** The file starts with the ASCII signature "BM". */
  lemma SignatureBytes(width: nat, height: nat)
    requires width < UINT32_LIMIT && height < UINT32_LIMIT
    ensures SerializeHeader(MakeHeader(width, height))[..2] == [0x42, 0x4D]
  {
    var fs := HeaderFields(MakeHeader(width, height));
    assert SerializeFields(fs) == EncodeLE(2, 0x4D42) + SerializeFields(fs[1..]);
  }

  /**
   * writeBitmap: nothing when the file cannot be opened; otherwise the header
   * followed by exactly imageSize bytes of the caller's pixel buffer, which
   * must hold that many.
   */
  function WriteBitmap(canOpen: bool, imageData: seq<byte>, width: nat, height: nat): (file: Option<seq<byte>>)
    requires width < UINT32_LIMIT && height < UINT32_LIMIT
    requires |imageData| >= ImageSize(width, height)
    ensures file.None? <==> !canOpen
    ensures file.Some? ==>
      && |file.value| == HeaderSize + ImageSize(width, height)
      && ParseHeader(file.value) == MakeHeader(width, height)
      && file.value[HeaderSize..] == imageData[..ImageSize(width, height)]
  {
    if !canOpen then None
    else
      var header := MakeHeader(width, height);
      var pixels := imageData[..ImageSize(width, height)];
      HeaderRoundTrip(header, pixels);
      Some(SerializeHeader(header) + pixels)
  }

  /** The size recorded in the header is the size of the file whenever it fits in 32 bits. */
  lemma FileSizeMatches(width: nat, height: nat, imageData: seq<byte>)
    requires width < UINT32_LIMIT && height < UINT32_LIMIT
    requires |imageData| >= ImageSize(width, height)
    requires HeaderSize + ImageSize(width, height) < UINT32_LIMIT
    ensures |WriteBitmap(true, imageData, width, height).value| == MakeHeader(width, height).fileSize
    ensures ParseHeader(WriteBitmap(true, imageData, width, height).value).fileSize
            == |WriteBitmap(true, imageData, width, height).value|
  {
  }
}
