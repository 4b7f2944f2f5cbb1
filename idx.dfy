/** The byte-level part of src/util/idx.rs, which reads the IDX files of the
    MNIST database (LeCun, Cortes and Burges): a header of two zero bytes, a
    type byte and a dimension-count byte, then one 32-bit most-significant-
    byte-first size per dimension, then the payload. Opening and reading the
    files is not modelled: each operation takes the bytes a read delivered.
    Decoded samples are the crate's `Vector`, that of src/vector/mod.rs. */
module Idx {
  import opened Outcomes
  import CheckedVector

  /** The number four bytes denote when read most significant first. */
  function BigEndian(b: seq<bv8>): nat
    requires |b| >= 4
  {
    b[0] as nat * 0x100_0000 + b[1] as nat * 0x1_0000 + b[2] as nat * 0x100 + b[3] as nat
  }

  /** Byte `i` moved to its place in the word: `(b[i] as u32) << (8 * (3 - i))`. */
  function Placed(b: seq<bv8>, i: nat): bv32
    requires i < 4 && i < |b|
  {
    (b[i] as bv32) << (8 * (3 - i))
  }

  /** The accumulator of `u8_to_u32` after its first `i` iterations. */
  function Accumulated(b: seq<bv8>, i: nat): bv32
    requires i <= 4 && i <= |b|
  {
    if i == 0 then 0
    else if i == 1 then Placed(b, 0)
    else if i == 2 then Placed(b, 0) | Placed(b, 1)
    else if i == 3 then Placed(b, 0) | Placed(b, 1) | Placed(b, 2)
    else Placed(b, 0) | Placed(b, 1) | Placed(b, 2) | Placed(b, 3)
  }

  /** One iteration of the loop of `u8_to_u32` ORs the next placed byte in. */
  lemma AccumulateStep(b: seq<bv8>, i: nat)
    requires i < 4 && i < |b|
    ensures Accumulated(b, i) | Placed(b, i) == Accumulated(b, i + 1)
  {
    if i == 0 {
      var p := Placed(b, 0);
      assert (0 as bv32) | p == p;
    }
  }

  /** The four shift amounts, evaluated. */
  lemma PlacedAt(b: seq<bv8>)
    requires |b| >= 4
    ensures Placed(b, 0) == (b[0] as bv32) << 24 && Placed(b, 1) == (b[1] as bv32) << 16
    ensures Placed(b, 2) == (b[2] as bv32) << 8 && Placed(b, 3) == b[3] as bv32
  {
  }

  /** The four placed bytes occupy disjoint bits, so OR-ing them is adding
      them: the word's value is the big-endian number. */
  lemma {:induction false} AccumulatedValue(b: seq<bv8>)
    requires |b| >= 4
    ensures Accumulated(b, 4) as int == BigEndian(b)
  {
    AccumulatedWord(b);
    WordValue(b[0], b[1], b[2], b[3]);
  }

  /** The same fact on four bytes alone, with nothing else in scope. */
  lemma WordValue(b0: bv8, b1: bv8, b2: bv8, b3: bv8)
    ensures (((b0 as bv32) << 24) | ((b1 as bv32) << 16) | ((b2 as bv32) << 8) | (b3 as bv32)) as int
        == b0 as int * 0x100_0000 + b1 as int * 0x1_0000 + b2 as int * 0x100 + b3 as int
  {
  }

  /** `u8_to_u32`: reads the first four bytes, most significant first. The
      callers always pass a four-byte slice; a shorter one would panic. */
  method U8ToU32(bytes: seq<bv8>) returns (res: bv32)
    requires |bytes| >= 4
    ensures res as int == BigEndian(bytes)
  {
    res := 0;
    for i := 0 to 4
      invariant res == Accumulated(bytes, i)
    {
      AccumulateStep(bytes, i);
      res := res | Placed(bytes, i);
    }
    AccumulatedValue(bytes);
  }

  /** The four-byte most-significant-first encoding of a `u32`. */
  function EncodeU32(x: bv32): (b: seq<bv8>)
    ensures |b| == 4
  {
    [(x >> 24) as bv8, ((x >> 16) & 0xFF) as bv8, ((x >> 8) & 0xFF) as bv8, (x & 0xFF) as bv8]
  }

  lemma EncodedBytesReassemble(x: bv32)
    ensures ((((x >> 24) as bv8) as bv32) << 24) | (((((x >> 16) & 0xFF) as bv8) as bv32) << 16)
          | (((((x >> 8) & 0xFF) as bv8) as bv32) << 8) | (((x & 0xFF) as bv8) as bv32) == x
  {
  }

  lemma ReassembledBytesSplit(b0: bv8, b1: bv8, b2: bv8, b3: bv8)
    ensures var w := ((b0 as bv32) << 24) | ((b1 as bv32) << 16) | ((b2 as bv32) << 8) | (b3 as bv32);
      (w >> 24) as bv8 == b0 && ((w >> 16) & 0xFF) as bv8 == b1
      && ((w >> 8) & 0xFF) as bv8 == b2 && (w & 0xFF) as bv8 == b3
  {
  }

  /** The word four bytes accumulate to, written out. */
  lemma AccumulatedWord(b: seq<bv8>)
    requires |b| >= 4
    ensures Accumulated(b, 4)
         == ((b[0] as bv32) << 24) | ((b[1] as bv32) << 16) | ((b[2] as bv32) << 8) | (b[3] as bv32)
  {
    PlacedAt(b);
  }

  /** Decoding an encoded `u32` gives it back. */
  lemma {:induction false} DecodeEncode(x: bv32)
    ensures BigEndian(EncodeU32(x)) == x as int
  {
    var e := EncodeU32(x);
    AccumulatedValue(e);
    AccumulatedWord(e);
    EncodedBytesReassemble(x);
  }

  /** Encoding the word four bytes accumulate to gives back those bytes. */
  lemma {:induction false} EncodeDecode(b: seq<bv8>)
    requires |b| == 4
    ensures EncodeU32(Accumulated(b, 4)) == b
  {
    AccumulatedWord(b);
    ReassembledBytesSplit(b[0], b[1], b[2], b[3]);
    assert EncodeU32(Accumulated(b, 4)) == [b[0], b[1], b[2], b[3]];
  }

  /** The fields `MNISTLabelReader::new` keeps. */
  datatype LabelHeader = LabelHeader(numItems: nat, dimens: bv8)

  /** The header part of `MNISTLabelReader::new`, given its 8 header bytes. */
  method LabelReaderHeader(buf: seq<bv8>) returns (h: LabelHeader)
    requires |buf| == 8
    ensures h.dimens == buf[3]
    ensures h.numItems == BigEndian(buf[4..8])
  {
    var dimens := buf[3];
    var numItems := U8ToU32(buf[4..8]);
    h := LabelHeader(numItems as nat, dimens);
  }

  /** The fields `MNISTImageReader::new` keeps (the file handle aside). */
  datatype ImageHeader = ImageHeader(numItems: nat, nRows: nat, nCols: nat, nPixels: nat)

  /** Rust's `u32` multiplication with the overflow check of a debug build. */
  function MulU32(a: nat, b: nat): (r: Result<nat>)
    ensures r.Ok? <==> a * b < 0x1_0000_0000
    ensures r.Ok? ==> r.value == a * b
    ensures r.Err? ==> r.panic == MultiplyOverflow
  {
    if a * b < 0x1_0000_0000 then Ok(a * b) else Err(MultiplyOverflow)
  }

  /** The header part of `MNISTImageReader::new`, given its 16 header bytes:
      items, rows and columns are the sizes at bytes 4, 8 and 12, and the
      pixel count `num_cols * num_rows` is computed in `u32`. */
  method ImageReaderHeader(buf: seq<bv8>) returns (r: Result<ImageHeader>)
    requires |buf| == 16
    ensures r == (var count := MulU32(BigEndian(buf[12..16]), BigEndian(buf[8..12]));
      if count.Err? then Err(count.panic)
      else Ok(ImageHeader(BigEndian(buf[4..8]), BigEndian(buf[8..12]), BigEndian(buf[12..16]), count.value)))
  {
    var numItems := U8ToU32(buf[4..8]);
    var numRows := U8ToU32(buf[8..12]);
    var numCols := U8ToU32(buf[12..16]);
    var count := MulU32(numCols as nat, numRows as nat);
    if count.Err? {
      return Err(count.panic);
    }
    r := Ok(ImageHeader(numItems as nat, numRows as nat, numCols as nat, count.value));
  }

  /** A length-10 target vector with a single 1.0, at `index`. */
  predicate OneHot(v: seq<real>, index: nat)
  {
    |v| == 10 && index < 10 && v[index] == 1.0 && forall i :: 0 <= i < 10 && i != index ==> v[i] == 0.0
  }

  /** `MNISTLabelReader::read_next_label` as written, given the byte the read
      delivered (`None` when it read nothing): the 1.0 goes to index
      `label - 1`, which underflows for label 0 and is out of range for a
      label above 10. */
  method ReadNextLabel(read: Option<bv8>) returns (r: Result<Option<CheckedVector.Vector>>)
    ensures read.None? ==> r == Ok(None)
    ensures read.Some? ==> (r.Ok? <==> 1 <= read.value as int <= 10)
    ensures read == Some(0) ==> r == Err(SubtractOverflow)
    ensures read.Some? && read.value as int > 10 ==> r == Err(IndexOutOfBounds)
    ensures r.Ok? && read.Some? ==> r.value.Some? && OneHot(r.value.value.inner, read.value as int - 1)
  {
    if read.None? {
      return Ok(None);
    }
    var labelByte := read.value;
    var vecIn := new real[10](_ => 0.0);
    if labelByte == 0 {
      return Err(SubtractOverflow);
    }
    var index := labelByte as int - 1;
    if index >= vecIn.Length {
      return Err(IndexOutOfBounds);
    }
    vecIn[index] := 1.0;
    r := Ok(Some(CheckedVector.From(vecIn[..])));
  }

  /** `read_next_label` as evidently intended: MNIST labels are the digits
      0 to 9, and the 1.0 goes to the label's own index. */
  method ReadNextLabelIntended(read: Option<bv8>) returns (r: Result<Option<CheckedVector.Vector>>)
    ensures read.None? ==> r == Ok(None)
    ensures read.Some? ==> (r.Ok? <==> read.value as int < 10)
    ensures read.Some? && read.value as int >= 10 ==> r == Err(IndexOutOfBounds)
    ensures r.Ok? && read.Some? ==> r.value.Some? && OneHot(r.value.value.inner, read.value as int)
  {
    if read.None? {
      return Ok(None);
    }
    var labelByte := read.value;
    var vecIn := new real[10](_ => 0.0);
    var index := labelByte as int;
    if index >= vecIn.Length {
      return Err(IndexOutOfBounds);
    }
    vecIn[index] := 1.0;
    r := Ok(Some(CheckedVector.From(vecIn[..])));
  }

  /** The digit 0, present in every MNIST label file, panics as written and
      is encoded at index 0 as intended. */
  method LabelZeroDiscrepancy() returns (asWritten: Result<Option<CheckedVector.Vector>>, intended: Result<Option<CheckedVector.Vector>>)
    ensures asWritten == Err(SubtractOverflow)
    ensures intended.Ok? && intended.value.Some? && OneHot(intended.value.value.inner, 0)
  {
    asWritten := ReadNextLabel(Some(0));
    intended := ReadNextLabelIntended(Some(0));
  }

  /** `MNISTImageReader::read_next_image`, given how many bytes the read
      delivered and the `n_pixels`-byte buffer: nothing when it read
      nothing, else every byte as a real, in order. */
  function ReadNextImage(header: ImageHeader, readLen: nat, buf: seq<bv8>): (r: Option<CheckedVector.Vector>)
    requires |buf| == header.nPixels && readLen <= |buf|
    ensures r.None? <==> readLen == 0
    ensures r.Some? ==> CheckedVector.Len(r.value) == header.nPixels
    ensures r.Some? ==> forall i :: 0 <= i < |buf| ==> r.value.inner[i] == buf[i] as int as real
  {
    if readLen == 0 then None
    else Some(CheckedVector.From(seq(header.nPixels, i requires 0 <= i < header.nPixels => buf[i] as int as real)))
  }

  /** Every pixel is a whole number from 0 to 255, and rounding it down
      gives back its byte: no pixel is lost or reordered. */
  lemma ImagePixelsRoundTrip(header: ImageHeader, readLen: nat, buf: seq<bv8>)
    requires |buf| == header.nPixels && 0 < readLen <= |buf|
    ensures var v := ReadNextImage(header, readLen, buf).value.inner;
      forall i :: 0 <= i < |buf| ==>
        v[i] == v[i].Floor as real && 0.0 <= v[i] <= 255.0 && v[i].Floor == buf[i] as int
  {
  }
}
