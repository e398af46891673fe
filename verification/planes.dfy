/** The 10-bit plane readers NV15 and NV20: rows of samples packed as one little-endian bit stream.
    Bytes and samples are bit vectors, as the shifts and masks of the readers take them. */
module Planes {
  import opened Wrappers

  type Sample = nat

  type TenBits = v: bv16 | v < 1024

  // 4:2:0 and 4:2:2.
  datatype Format = NV15 | NV20

  // -- the bit stream ---------------------------------------------------------------------

  function Mask(j: nat): bv8
    requires j < 8
  {
    if j == 0 then 1 else if j == 1 then 2 else if j == 2 then 4 else if j == 3 then 8
    else if j == 4 then 16 else if j == 5 then 32 else if j == 6 then 64 else 128
  }

  predicate Bit(b: bv8, j: nat)
    requires j < 8
  {
    b & Mask(j) != 0
  }

  // Bit i of a byte string: the bits of every byte from the least significant one up.
  predicate BitAt(src: seq<bv8>, i: nat)
    requires i / 8 < |src|
  {
    Bit(src[i / 8], i % 8)
  }

  function Weight(bit: bool, weight: bv16): bv16 {
    if bit then weight else 0
  }

  // The number that ten bits write, least significant bit first.
  function Number(b0: bool, b1: bool, b2: bool, b3: bool, b4: bool, b5: bool, b6: bool, b7: bool, b8: bool, b9: bool): bv16 {
    Weight(b0, 1) | Weight(b1, 2) | Weight(b2, 4) | Weight(b3, 8) | Weight(b4, 16)
    | Weight(b5, 32) | Weight(b6, 64) | Weight(b7, 128) | Weight(b8, 256) | Weight(b9, 512)
  }

  // The ten bits from p on.
  function FieldAt(src: seq<bv8>, p: nat): Sample
    requires (p + 17) / 8 <= |src|
  {
    Number(BitAt(src, p), BitAt(src, p + 1), BitAt(src, p + 2), BitAt(src, p + 3), BitAt(src, p + 4),
           BitAt(src, p + 5), BitAt(src, p + 6), BitAt(src, p + 7), BitAt(src, p + 8), BitAt(src, p + 9)) as Sample
  }

  // -- four samples in five bytes ---------------------------------------------------------

  function Unpack4x10(src: seq<bv8>, offset: nat): (q: seq<Sample>)
    requires offset + 4 < |src|
    ensures |q| == 4
  {
    var dst := Unpack(src[offset], src[offset + 1], src[offset + 2], src[offset + 3], src[offset + 4]);
    [dst[0] as Sample, dst[1] as Sample, dst[2] as Sample, dst[3] as Sample]
  }

  function Unpack(b0: bv8, b1: bv8, b2: bv8, b3: bv8, b4: bv8): (q: seq<bv16>)
    ensures |q| == 4
  {
    var s0, s1, s2, s3, s4 := b0 as bv16, b1 as bv16, b2 as bv16, b3 as bv16, b4 as bv16;
    [((s0 >> 0) & 0xFF) | ((s1 & 0x03) << 8),
     ((s1 >> 2) & 0x3F) | ((s2 & 0x0F) << 6),
     ((s2 >> 4) & 0x0F) | ((s3 & 0x3F) << 4),
     ((s3 >> 6) & 0x0F) | ((s4 & 0xFF) << 2)]
  }

  lemma BitIs(src: seq<bv8>, at: nat, bit: nat, p: nat)
    requires at < |src| && bit < 8 && p == 8 * at + bit
    ensures p / 8 == at && p % 8 == bit && BitAt(src, p) == Bit(src[at], bit)
  {
    assert p / 8 == at && p % 8 == bit;
  }

  lemma UnpackFirst(b0: bv8, b1: bv8, b2: bv8, b3: bv8, b4: bv8)
    ensures Unpack(b0, b1, b2, b3, b4)[0]
         == Number(Bit(b0, 0), Bit(b0, 1), Bit(b0, 2), Bit(b0, 3), Bit(b0, 4), Bit(b0, 5), Bit(b0, 6), Bit(b0, 7), Bit(b1, 0), Bit(b1, 1))
  {
  }

  lemma UnpackSecond(b0: bv8, b1: bv8, b2: bv8, b3: bv8, b4: bv8)
    ensures Unpack(b0, b1, b2, b3, b4)[1]
         == Number(Bit(b1, 2), Bit(b1, 3), Bit(b1, 4), Bit(b1, 5), Bit(b1, 6), Bit(b1, 7), Bit(b2, 0), Bit(b2, 1), Bit(b2, 2), Bit(b2, 3))
  {
  }

  lemma UnpackThird(b0: bv8, b1: bv8, b2: bv8, b3: bv8, b4: bv8)
    ensures Unpack(b0, b1, b2, b3, b4)[2]
         == Number(Bit(b2, 4), Bit(b2, 5), Bit(b2, 6), Bit(b2, 7), Bit(b3, 0), Bit(b3, 1), Bit(b3, 2), Bit(b3, 3), Bit(b3, 4), Bit(b3, 5))
  {
  }

  lemma UnpackFourth(b0: bv8, b1: bv8, b2: bv8, b3: bv8, b4: bv8)
    ensures Unpack(b0, b1, b2, b3, b4)[3]
         == Number(Bit(b3, 6), Bit(b3, 7), Bit(b4, 0), Bit(b4, 1), Bit(b4, 2), Bit(b4, 3), Bit(b4, 4), Bit(b4, 5), Bit(b4, 6), Bit(b4, 7))
  {
  }

  lemma FieldFirst(src: seq<bv8>, offset: nat, p: nat)
    requires offset + 4 < |src| && p == 8 * offset
    ensures ReadsField(src, offset, 0, p)
  {
    UnpackFirst(src[offset], src[offset + 1], src[offset + 2], src[offset + 3], src[offset + 4]);
    BitIs(src, offset + 0, 0, p);
    BitIs(src, offset + 0, 1, p + 1);
    BitIs(src, offset + 0, 2, p + 2);
    BitIs(src, offset + 0, 3, p + 3);
    BitIs(src, offset + 0, 4, p + 4);
    BitIs(src, offset + 0, 5, p + 5);
    BitIs(src, offset + 0, 6, p + 6);
    BitIs(src, offset + 0, 7, p + 7);
    BitIs(src, offset + 1, 0, p + 8);
    BitIs(src, offset + 1, 1, p + 9);
  }

  lemma FieldSecond(src: seq<bv8>, offset: nat, p: nat)
    requires offset + 4 < |src| && p == 8 * offset + 10
    ensures ReadsField(src, offset, 1, p)
  {
    UnpackSecond(src[offset], src[offset + 1], src[offset + 2], src[offset + 3], src[offset + 4]);
    BitIs(src, offset + 1, 2, p);
    BitIs(src, offset + 1, 3, p + 1);
    BitIs(src, offset + 1, 4, p + 2);
    BitIs(src, offset + 1, 5, p + 3);
    BitIs(src, offset + 1, 6, p + 4);
    BitIs(src, offset + 1, 7, p + 5);
    BitIs(src, offset + 2, 0, p + 6);
    BitIs(src, offset + 2, 1, p + 7);
    BitIs(src, offset + 2, 2, p + 8);
    BitIs(src, offset + 2, 3, p + 9);
  }

  lemma FieldThird(src: seq<bv8>, offset: nat, p: nat)
    requires offset + 4 < |src| && p == 8 * offset + 20
    ensures ReadsField(src, offset, 2, p)
  {
    UnpackThird(src[offset], src[offset + 1], src[offset + 2], src[offset + 3], src[offset + 4]);
    BitIs(src, offset + 2, 4, p);
    BitIs(src, offset + 2, 5, p + 1);
    BitIs(src, offset + 2, 6, p + 2);
    BitIs(src, offset + 2, 7, p + 3);
    BitIs(src, offset + 3, 0, p + 4);
    BitIs(src, offset + 3, 1, p + 5);
    BitIs(src, offset + 3, 2, p + 6);
    BitIs(src, offset + 3, 3, p + 7);
    BitIs(src, offset + 3, 4, p + 8);
    BitIs(src, offset + 3, 5, p + 9);
  }

  lemma FieldFourth(src: seq<bv8>, offset: nat, p: nat)
    requires offset + 4 < |src| && p == 8 * offset + 30
    ensures ReadsField(src, offset, 3, p)
  {
    UnpackFourth(src[offset], src[offset + 1], src[offset + 2], src[offset + 3], src[offset + 4]);
    BitIs(src, offset + 3, 6, p);
    BitIs(src, offset + 3, 7, p + 1);
    BitIs(src, offset + 4, 0, p + 2);
    BitIs(src, offset + 4, 1, p + 3);
    BitIs(src, offset + 4, 2, p + 4);
    BitIs(src, offset + 4, 3, p + 5);
    BitIs(src, offset + 4, 4, p + 6);
    BitIs(src, offset + 4, 5, p + 7);
    BitIs(src, offset + 4, 6, p + 8);
    BitIs(src, offset + 4, 7, p + 9);
  }

  ghost predicate ReadsField(src: seq<bv8>, offset: nat, k: nat, p: nat)
    requires offset + 4 < |src| && k < 4
  {
    (p + 17) / 8 <= |src| && Unpack4x10(src, offset)[k] == FieldAt(src, p)
  }

  // The masks and shifts take the ten-bit fields of the bit stream.
  lemma UnpackReadsBits(src: seq<bv8>, offset: nat, k: nat, p: nat)
    requires offset + 4 < |src| && k < 4 && p == 8 * offset + 10 * k
    ensures ReadsField(src, offset, k, p)
  {
    if k == 0 {
      FieldFirst(src, offset, p);
    } else if k == 1 {
      FieldSecond(src, offset, p);
    } else if k == 2 {
      FieldThird(src, offset, p);
    } else {
      FieldFourth(src, offset, p);
    }
  }

  // -- the plane readers ------------------------------------------------------------------

  datatype Layout = Layout(width: nat, height: nat, yStride: nat, uvStride: nat, xDiv2: bool, yDiv2: bool, uvSwap: bool) {
    function ChromaWidth(): nat {
      if xDiv2 then width / 2 else width
    }

    function ChromaHeight(): nat {
      if yDiv2 then height / 2 else height
    }

    function LumaRow(y: nat): nat {
      y * yStride
    }

    function ChromaRow(y: nat): nat {
      yStride * height + y * uvStride
    }
  }

  // Sample x of a row of n samples that starts at byte row. Samples behind the last full group of
  // four stay zero, and so does a group that the bytes do not hold.
  function Packed(src: seq<bv8>, row: nat, n: nat, x: nat): Sample {
    if x < n / 4 * 4 && row + 5 * (x / 4) + 4 < |src| then Unpack4x10(src, row + 5 * (x / 4))[x % 4] else 0
  }

  function Groups(src: seq<bv8>): (nat, nat, nat) -> Sample {
    (row, n, x) => Packed(src, row, n, x)
  }

  function Luma(packed: (nat, nat, nat) -> Sample, f: Layout, y: nat, x: nat): Sample {
    packed(f.LumaRow(y), f.width, x)
  }

  // One channel of the interleaved chroma samples; half is 0 or 1.
  function Chroma(packed: (nat, nat, nat) -> Sample, f: Layout, half: nat, y: nat, x: nat): Sample {
    packed(f.ChromaRow(y), 2 * f.ChromaWidth(), 2 * x + half)
  }

  function Group(src: seq<bv8>, at: nat): (q: seq<Sample>)
    ensures |q| == 4
  {
    if at + 4 < |src| then Unpack4x10(src, at) else [0, 0, 0, 0]
  }

  lemma PackedIsGroup(src: seq<bv8>, row: nat, n: nat, x: nat, k: nat)
    requires x % 4 == 0 && x + 3 < n && k < 4
    ensures Packed(src, row, n, x + k) == Group(src, row + x * 5 / 4)[k]
  {
    assert x == 4 * (x / 4) && (x + k) / 4 == x / 4 && (x + k) % 4 == k && x * 5 / 4 == 5 * (x / 4);
  }

  method PutGroup(A: array2<Sample>, y: nat, x: nat, q: seq<Sample>)
    requires y < A.Length0 && x + 3 < A.Length1 && |q| == 4
    modifies A
    ensures forall v, u :: 0 <= v < A.Length0 && 0 <= u < A.Length1 ==>
              A[v, u] == if v == y && x <= u < x + 4 then q[u - x] else old(A[v, u])
  {
    A[y, x] := q[0];
    A[y, x + 1] := q[1];
    A[y, x + 2] := q[2];
    A[y, x + 3] := q[3];
  }

  // The samples of one row.
  ghost predicate IsRow(src: seq<bv8>, row: nat, want: seq<Sample>) {
    forall x {:trigger Packed(src, row, |want|, x)} :: 0 <= x < |want| ==> want[x] == Packed(src, row, |want|, x)
  }

  ghost function RowOf(src: seq<bv8>, row: nat, n: nat): (want: seq<Sample>)
    ensures |want| == n && IsRow(src, row, want)
  {
    seq(n, x requires 0 <= x < n => Packed(src, row, n, x))
  }

  predicate Same4(q: seq<Sample>, want: seq<Sample>, x: nat)
    requires |q| == 4
  {
    x + 3 < |want| && q[0] == want[x] && q[1] == want[x + 1] && q[2] == want[x + 2] && q[3] == want[x + 3]
  }

  lemma RowHasGroup(src: seq<bv8>, row: nat, want: seq<Sample>, x: nat)
    requires IsRow(src, row, want) && x % 4 == 0 && x + 3 < |want|
    ensures Same4(Group(src, row + x * 5 / 4), want, x)
  {
    PackedIsGroup(src, row, |want|, x, 0);
    PackedIsGroup(src, row, |want|, x, 1);
    PackedIsGroup(src, row, |want|, x, 2);
    PackedIsGroup(src, row, |want|, x, 3);
    var q := Group(src, row + x * 5 / 4);
    assert q[0] == want[x + 0] && q[1] == want[x + 1] && q[2] == want[x + 2] && q[3] == want[x + 3];
  }

  method CopyGroup(src: seq<bv8>, at: nat, A: array2<Sample>, y: nat, x: nat, ghost want: seq<Sample>)
    requires y < A.Length0 && x + 3 < A.Length1
    requires |want| == A.Length1 && Same4(Group(src, at), want, x)
    requires A[y, x] == A[y, x + 1] == A[y, x + 2] == A[y, x + 3] == 0
    modifies A
    ensures forall v, u :: 0 <= v < A.Length0 && 0 <= u < A.Length1 ==>
              A[v, u] == if v == y && x <= u < x + 4 then want[u] else old(A[v, u])
  {
    if at + 4 < |src| {
      var dst := Unpack4x10(src, at);
      PutGroup(A, y, x, dst);
    }
  }

  method ReadGroup(src: seq<bv8>, rowOffset: nat, A: array2<Sample>, y: nat, x: nat, ghost want: seq<Sample>)
    requires y < A.Length0 && x + 3 < A.Length1 && x % 4 == 0
    requires |want| == A.Length1 && IsRow(src, rowOffset, want)
    requires A[y, x] == A[y, x + 1] == A[y, x + 2] == A[y, x + 3] == 0
    modifies A
    ensures forall v, u :: 0 <= v < A.Length0 && 0 <= u < A.Length1 ==>
              A[v, u] == if v == y && x <= u < x + 4 then want[u] else old(A[v, u])
  {
    RowHasGroup(src, rowOffset, want, x);
    CopyGroup(src, rowOffset + x * 5 / 4, A, y, x, want);
  }

  lemma TailIsZero(src: seq<bv8>, row: nat, want: seq<Sample>)
    requires IsRow(src, row, want)
    ensures forall x :: |want| / 4 * 4 <= x < |want| ==> want[x] == 0
  {
    forall x | |want| / 4 * 4 <= x < |want| ensures want[x] == 0 {
      assert Packed(src, row, |want|, x) == 0;
    }
  }

  method ReadLumaRow(src: seq<bv8>, rowOffset: nat, A: array2<Sample>, y: nat, ghost want: seq<Sample>)
    requires y < A.Length0 && |want| == A.Length1 && IsRow(src, rowOffset, want)
    requires forall u :: 0 <= u < A.Length1 ==> A[y, u] == 0
    modifies A
    ensures forall v, u :: 0 <= v < A.Length0 && 0 <= u < A.Length1 ==>
              A[v, u] == if v == y then want[u] else old(A[v, u])
  {
    TailIsZero(src, rowOffset, want);
    var x := 0;
    while x + 3 < A.Length1
      invariant x % 4 == 0 && x <= A.Length1 / 4 * 4
      invariant forall v, u :: 0 <= v < A.Length0 && 0 <= u < A.Length1 ==>
                  A[v, u] == if v != y then old(A[v, u]) else if u < x then want[u] else 0
    {
      ReadGroup(src, rowOffset, A, y, x, want);
      x := x + 4;
    }
  }

  method ReadLuma(src: seq<bv8>, f: Layout) returns (Y: array2<Sample>)
    ensures Y.Length0 == f.height && Y.Length1 == f.width
    ensures forall y, x :: 0 <= y < f.height && 0 <= x < f.width ==> Y[y, x] == Luma(Groups(src), f, y, x)
  {
    Y := new Sample[f.height, f.width]((_, _) => 0);
    for y := 0 to f.height
      invariant forall v, x :: 0 <= v < y && 0 <= x < f.width ==> Y[v, x] == Luma(Groups(src), f, v, x)
      invariant forall v, x :: y <= v < f.height && 0 <= x < f.width ==> Y[v, x] == 0
    {
      ReadLumaRow(src, f.LumaRow(y), Y, y, RowOf(src, f.LumaRow(y), f.width));
    }
  }

  // -- chroma -----------------------------------------------------------------------------

  method CopyPairs(src: seq<bv8>, at: nat, U: array2<Sample>, V: array2<Sample>, y: nat, x: nat, uvSwap: bool, ghost want: seq<Sample>)
    requires U != V && y < U.Length0 == V.Length0 && x + 1 < U.Length1 == V.Length1
    requires |want| == 2 * U.Length1 && Same4(Group(src, at), want, 2 * x)
    requires U[y, x] == U[y, x + 1] == V[y, x] == V[y, x + 1] == 0
    modifies U, V
    ensures forall v, u :: 0 <= v < U.Length0 && 0 <= u < U.Length1 ==>
              && U[v, u] == (if v == y && x <= u < x + 2 then want[2 * u + if uvSwap then 1 else 0] else old(U[v, u]))
              && V[v, u] == (if v == y && x <= u < x + 2 then want[2 * u + if uvSwap then 0 else 1] else old(V[v, u]))
  {
    if at + 4 < |src| {
      var uv := Unpack4x10(src, at);
      if uvSwap {
        V[y, x] := uv[0];
        U[y, x] := uv[1];
        V[y, x + 1] := uv[2];
        U[y, x + 1] := uv[3];
      } else {
        U[y, x] := uv[0];
        V[y, x] := uv[1];
        U[y, x + 1] := uv[2];
        V[y, x + 1] := uv[3];
      }
    }
  }

  method ReadPairs(src: seq<bv8>, rowOffset: nat, U: array2<Sample>, V: array2<Sample>, y: nat, x: nat, uvSwap: bool, ghost want: seq<Sample>)
    requires U != V && y < U.Length0 == V.Length0 && x + 1 < U.Length1 == V.Length1 && x % 2 == 0
    requires |want| == 2 * U.Length1 && IsRow(src, rowOffset, want)
    requires U[y, x] == U[y, x + 1] == V[y, x] == V[y, x + 1] == 0
    modifies U, V
    ensures forall v, u :: 0 <= v < U.Length0 && 0 <= u < U.Length1 ==>
              && U[v, u] == (if v == y && x <= u < x + 2 then want[2 * u + if uvSwap then 1 else 0] else old(U[v, u]))
              && V[v, u] == (if v == y && x <= u < x + 2 then want[2 * u + if uvSwap then 0 else 1] else old(V[v, u]))
  {
    RowHasGroup(src, rowOffset, want, 2 * x);
    assert x * 5 / 2 == (2 * x) * 5 / 4;
    CopyPairs(src, rowOffset + x * 5 / 2, U, V, y, x, uvSwap, want);
  }

  lemma ChromaTailIsZero(src: seq<bv8>, row: nat, want: seq<Sample>, n: nat)
    requires IsRow(src, row, want) && |want| == 2 * n
    ensures n % 2 == 1 ==> want[2 * (n - 1)] == want[2 * (n - 1) + 1] == 0
  {
    TailIsZero(src, row, want);
    assert |want| / 4 * 4 == 2 * (n / 2 * 2);
  }

  method ReadChromaRow(src: seq<bv8>, rowOffset: nat, U: array2<Sample>, V: array2<Sample>, y: nat, uvSwap: bool, ghost want: seq<Sample>)
    requires U != V && y < U.Length0 == V.Length0 && U.Length1 == V.Length1
    requires |want| == 2 * U.Length1 && IsRow(src, rowOffset, want)
    requires forall u :: 0 <= u < U.Length1 ==> U[y, u] == V[y, u] == 0
    modifies U, V
    ensures forall v, u :: 0 <= v < U.Length0 && 0 <= u < U.Length1 ==>
              && U[v, u] == (if v == y then want[2 * u + if uvSwap then 1 else 0] else old(U[v, u]))
              && V[v, u] == (if v == y then want[2 * u + if uvSwap then 0 else 1] else old(V[v, u]))
  {
    ChromaTailIsZero(src, rowOffset, want, U.Length1);
    var x := 0;
    while x + 1 < U.Length1
      invariant x % 2 == 0 && x <= U.Length1 / 2 * 2
      invariant forall v, u :: 0 <= v < U.Length0 && 0 <= u < U.Length1 ==>
                  && U[v, u] == (if v != y then old(U[v, u]) else if u < x then want[2 * u + if uvSwap then 1 else 0] else 0)
                  && V[v, u] == (if v != y then old(V[v, u]) else if u < x then want[2 * u + if uvSwap then 0 else 1] else 0)
    {
      ReadPairs(src, rowOffset, U, V, y, x, uvSwap, want);
      x := x + 2;
    }
  }

  // A plane of the given size and content.
  ghost predicate Holds(A: array2<Sample>, height: nat, width: nat, want: (nat, nat) -> Sample)
    reads A
  {
    && A.Length0 == height && A.Length1 == width
    && (forall y: nat, x: nat :: y < height && x < width ==> A[y, x] == want(y, x))
  }

  method ReadChromaLine(src: seq<bv8>, f: Layout, U: array2<Sample>, V: array2<Sample>, y: nat, ghost packed: (nat, nat, nat) -> Sample)
    requires U != V && y < U.Length0 == V.Length0 && U.Length1 == V.Length1 == f.ChromaWidth() && packed == Groups(src)
    requires forall u :: 0 <= u < U.Length1 ==> U[y, u] == V[y, u] == 0
    modifies U, V
    ensures forall v: nat, u: nat :: v < U.Length0 && u < U.Length1 ==>
              && U[v, u] == (if v == y then Chroma(packed, f, if f.uvSwap then 1 else 0, v, u) else old(U[v, u]))
              && V[v, u] == (if v == y then Chroma(packed, f, if f.uvSwap then 0 else 1, v, u) else old(V[v, u]))
  {
    ReadChromaRow(src, f.ChromaRow(y), U, V, y, f.uvSwap, RowOf(src, f.ChromaRow(y), 2 * f.ChromaWidth()));
  }

  method ReadChroma(src: seq<bv8>, f: Layout) returns (U: array2<Sample>, V: array2<Sample>)
    ensures Holds(U, f.ChromaHeight(), f.ChromaWidth(), (y, x) => Chroma(Groups(src), f, if f.uvSwap then 1 else 0, y, x))
    ensures Holds(V, f.ChromaHeight(), f.ChromaWidth(), (y, x) => Chroma(Groups(src), f, if f.uvSwap then 0 else 1, y, x))
  {
    var ch, cw := f.ChromaHeight(), f.ChromaWidth();
    ghost var packed := Groups(src);
    U := new Sample[ch, cw]((_, _) => 0);
    V := new Sample[ch, cw]((_, _) => 0);
    for y := 0 to ch
      invariant forall v: nat, x: nat :: v < ch && x < cw ==>
                  && U[v, x] == (if v < y then Chroma(packed, f, if f.uvSwap then 1 else 0, v, x) else 0)
                  && V[v, x] == (if v < y then Chroma(packed, f, if f.uvSwap then 0 else 1, v, x) else 0)
    {
      ReadChromaLine(src, f, U, V, y, packed);
    }
  }

  // -- from a file to planes --------------------------------------------------------------

  datatype Image = Image(format: Format, width: nat, height: nat, stride: nat) {
    predicate Wide() {
      MinStride(width) <= stride
    }

    function AsLayout(): Layout {
      Layout(width, height, stride, stride, true, format.NV15?, false)
    }

    function RequiredSize(): nat {
      height * stride + AsLayout().ChromaHeight() * stride
    }

    // The chroma row of an image row.
    function Down(y: nat): nat {
      if format.NV15? then y / 2 else y
    }
  }

  function MinStride(width: nat): nat {
    (width * 5 + 3) / 4
  }

  function Stride(width: nat, stride: Option<int>): nat {
    if stride.None? || stride.value < MinStride(width) then MinStride(width) else stride.value
  }

  function Zeros(n: nat): (s: seq<bv8>)
    ensures |s| == n
  {
    seq(n, _ => 0)
  }

  function Fit(file: seq<bv8>, size: nat): (bytes: seq<bv8>)
    ensures |bytes| == size
    ensures forall i :: 0 <= i < size ==> bytes[i] == if i < |file| then file[i] else 0
  {
    if |file| < size then file + Zeros(size - |file|) else file[..size]
  }

  // The ten bits from p on, zero behind the end.
  function Field(src: seq<bv8>, p: nat): Sample {
    if (p + 17) / 8 <= |src| then FieldAt(src, p) else 0
  }

  function LumaField(im: Image, y: nat, x: nat): nat {
    8 * im.AsLayout().LumaRow(y) + 10 * x
  }

  function ChromaField(im: Image, y: nat, i: nat): nat {
    8 * im.AsLayout().ChromaRow(y) + 10 * i
  }

  function BitStream(src: seq<bv8>): nat -> Sample {
    p => Field(src, p)
  }

  // What the planes hold, by the bit stream alone.
  function DecodedY(im: Image, stream: nat -> Sample, y: nat, x: nat): Sample {
    if x < im.width / 4 * 4 then stream(LumaField(im, y, x)) else 0
  }

  function DecodedChroma(im: Image, stream: nat -> Sample, half: nat, y: nat, x: nat): Sample {
    if im.Down(y) < im.AsLayout().ChromaHeight() && x / 2 < im.width / 2 / 2 * 2
    then stream(ChromaField(im, im.Down(y), 2 * (x / 2) + half)) else 0
  }

  lemma {:induction false} RowsFit(rows: nat, stride: nat, y: nat)
    requires y < rows
    ensures y * stride + stride <= rows * stride
  {
    assert (rows - 1) * stride + stride == rows * stride;
    if y < rows - 1 {
      RowsFit(rows - 1, stride, y);
    }
  }

  lemma GroupFits(n: nat, width: nat, i: nat)
    requires n <= width && i < n / 4 * 4
    ensures 5 * (i / 4) + 5 <= MinStride(width)
  {
    assert i / 4 < n / 4;
  }

  // Behind the padding the readers' bounds guard never fails.
  lemma LumaGuardHolds(im: Image, y: nat, x: nat)
    requires im.Wide() && y < im.height && x < im.width / 4 * 4
    ensures im.AsLayout().LumaRow(y) + 5 * (x / 4) + 4 < im.RequiredSize()
  {
    GroupFits(im.width, im.width, x);
    LumaSpan(im, y);
  }

  lemma ChromaGuardHolds(im: Image, y: nat, i: nat)
    requires im.Wide() && y < im.AsLayout().ChromaHeight() && i < 2 * im.AsLayout().ChromaWidth() / 4 * 4
    ensures im.AsLayout().ChromaRow(y) + 5 * (i / 4) + 4 < im.RequiredSize()
  {
    GroupFits(2 * im.AsLayout().ChromaWidth(), im.width, i);
    ChromaSpan(im, y);
  }

  lemma LumaSpan(im: Image, y: nat)
    requires im.Wide() && y < im.height
    ensures im.width / 4 * 5 <= im.stride && im.AsLayout().LumaRow(y) + im.stride <= im.RequiredSize()
  {
    RowsFit(im.height, im.stride, y);
    assert im.AsLayout().ChromaHeight() * im.stride >= 0;
  }

  lemma ChromaSpan(im: Image, v: nat)
    requires im.Wide() && v < im.AsLayout().ChromaHeight()
    ensures 2 * im.AsLayout().ChromaWidth() / 4 * 5 <= im.stride && im.AsLayout().ChromaRow(v) + im.stride <= im.RequiredSize()
  {
    RowsFit(im.AsLayout().ChromaHeight(), im.stride, v);
    assert im.stride * im.height == im.height * im.stride;
  }

  // A packed sample is a field of the bit stream.
  lemma PackedIsField(src: seq<bv8>, row: nat, n: nat, x: nat)
    requires x < n / 4 * 4 && row + 5 * (x / 4) + 4 < |src|
    ensures Packed(src, row, n, x) == Field(src, 8 * row + 10 * x)
    ensures (8 * row + 10 * x + 17) / 8 <= |src|
  {
    assert x == 4 * (x / 4) + x % 4;
    UnpackReadsBits(src, row + 5 * (x / 4), x % 4, 8 * row + 10 * x);
  }

  function Upsampled(want: (nat, nat) -> Sample, im: Image, y: nat, x: nat): Sample {
    if im.Down(y) < im.AsLayout().ChromaHeight() && x / 2 < im.AsLayout().ChromaWidth() then want(im.Down(y), x / 2) else 0
  }

  method Upsample(src: array2<Sample>, im: Image, ghost want: (nat, nat) -> Sample) returns (dst: array2<Sample>)
    requires Holds(src, im.AsLayout().ChromaHeight(), im.AsLayout().ChromaWidth(), want)
    ensures Holds(dst, im.height, im.width, (y, x) => Upsampled(want, im, y, x))
  {
    dst := new Sample[im.height, im.width]((_, _) => 0);
    for y := 0 to im.height
      invariant forall v: nat, u: nat :: v < im.height && u < im.width ==>
                  dst[v, u] == if v < y then Upsampled(want, im, v, u) else 0
    {
      var sy := im.Down(y);
      for x := 0 to im.width
        invariant forall v: nat, u: nat :: v < im.height && u < im.width ==>
                    dst[v, u] == if v < y || (v == y && u < x) then Upsampled(want, im, v, u) else 0
      {
        var sx := x / 2;
        if sy < src.Length0 && sx < src.Length1 {
          dst[y, x] := src[sy, sx];
        }
      }
    }
  }

  // The groups of a byte string of the given size are its bit stream.
  ghost predicate Agree(packed: (nat, nat, nat) -> Sample, stream: nat -> Sample, size: nat) {
    forall row: nat, n: nat, x: nat :: packed(row, n, x) ==
      if x >= n / 4 * 4 then 0 else if row + 5 * (x / 4) + 4 < size then stream(8 * row + 10 * x) else 0
  }

  lemma GroupsAreBitStream(src: seq<bv8>)
    ensures Agree(Groups(src), BitStream(src), |src|)
  {
    forall row: nat, n: nat, x: nat ensures Groups(src)(row, n, x) ==
      if x >= n / 4 * 4 then 0 else if row + 5 * (x / 4) + 4 < |src| then BitStream(src)(8 * row + 10 * x) else 0
    {
      if x < n / 4 * 4 && row + 5 * (x / 4) + 4 < |src| {
        PackedIsField(src, row, n, x);
      }
    }
  }

  lemma LumaDecoded(im: Image, packed: (nat, nat, nat) -> Sample, stream: nat -> Sample, y: nat, x: nat)
    requires im.Wide() && Agree(packed, stream, im.RequiredSize()) && y < im.height && x < im.width
    ensures Luma(packed, im.AsLayout(), y, x) == DecodedY(im, stream, y, x)
  {
    if x < im.width / 4 * 4 {
      LumaGuardHolds(im, y, x);
    }
  }

  lemma HalfIndex(n: nat, u: nat, half: nat)
    requires half < 2
    ensures 2 * u + half < 2 * n / 4 * 4 <==> u < n / 2 * 2
  {
    assert 2 * n / 4 == n / 2;
  }

  lemma ChromaIndex(im: Image, half: nat, v: nat, u: nat)
    requires im.Wide() && v < im.AsLayout().ChromaHeight() && half < 2
    ensures u < im.AsLayout().ChromaWidth() / 2 * 2 <==> 2 * u + half < 2 * im.AsLayout().ChromaWidth() / 4 * 4
    ensures u < im.AsLayout().ChromaWidth() / 2 * 2 ==> im.AsLayout().ChromaRow(v) + 5 * ((2 * u + half) / 4) + 4 < im.RequiredSize()
  {
    HalfIndex(im.AsLayout().ChromaWidth(), u, half);
    if u < im.AsLayout().ChromaWidth() / 2 * 2 {
      ChromaGuardHolds(im, v, 2 * u + half);
    }
  }

  lemma ChromaDecoded(im: Image, packed: (nat, nat, nat) -> Sample, stream: nat -> Sample, half: nat, y: nat, x: nat)
    requires im.Wide() && Agree(packed, stream, im.RequiredSize()) && half < 2
    ensures Upsampled((v, u) => Chroma(packed, im.AsLayout(), half, v, u), im, y, x) == DecodedChroma(im, stream, half, y, x)
  {
    if im.Down(y) < im.AsLayout().ChromaHeight() {
      ChromaIndex(im, half, im.Down(y), x / 2);
    }
  }

  function ImageOf(format: Format, width: nat, height: nat, stride: Option<int>): (im: Image)
    ensures im.Wide()
  {
    Image(format, width, height, Stride(width, stride))
  }

  // nv15_to_yuv_planes and nv20_to_yuv_planes.
  method ToYuvPlanes(file: seq<bv8>, format: Format, width: nat, height: nat, stride: Option<int>)
      returns (Y: array2<Sample>, U: array2<Sample>, V: array2<Sample>)
    ensures var im := ImageOf(format, width, height, stride);
            var bytes := Fit(file, im.RequiredSize());
            && Holds(Y, height, width, (y, x) => DecodedY(im, BitStream(bytes), y, x))
            && Holds(U, height, width, (y, x) => DecodedChroma(im, BitStream(bytes), 0, y, x))
            && Holds(V, height, width, (y, x) => DecodedChroma(im, BitStream(bytes), 1, y, x))
  {
    var im := ImageOf(format, width, height, stride);
    var f := im.AsLayout();
    var bytes := Fit(file, im.RequiredSize());
    Y := ReadLuma(bytes, f);
    var uSub, vSub := ReadChroma(bytes, f);
    U := Upsample(uSub, im, (y, x) => Chroma(Groups(bytes), f, 0, y, x));
    V := Upsample(vSub, im, (y, x) => Chroma(Groups(bytes), f, 1, y, x));
    GroupsAreBitStream(bytes);
    forall y: nat, x: nat | y < height && x < width
      ensures Y[y, x] == DecodedY(im, BitStream(bytes), y, x)
      ensures U[y, x] == DecodedChroma(im, BitStream(bytes), 0, y, x)
      ensures V[y, x] == DecodedChroma(im, BitStream(bytes), 1, y, x)
    {
      LumaDecoded(im, Groups(bytes), BitStream(bytes), y, x);
      ChromaDecoded(im, Groups(bytes), BitStream(bytes), 0, y, x);
      ChromaDecoded(im, Groups(bytes), BitStream(bytes), 1, y, x);
    }
  }

  // -- packing ----------------------------------------------------------------------------

  // Five bytes for four samples, by the bytes' own bits.
  function PackGroup(a: TenBits, b: TenBits, c: TenBits, d: TenBits): (s: seq<bv8>)
    ensures |s| == 5
  {
    [(a & 0xFF) as bv8, ((a >> 8) | ((b & 0x3F) << 2)) as bv8, ((b >> 6) | ((c & 0x0F) << 4)) as bv8,
     ((c >> 4) | ((d & 0x03) << 6)) as bv8, (d >> 2) as bv8]
  }

  lemma UnpackPack(a: TenBits, b: TenBits, c: TenBits, d: TenBits)
    ensures var s := PackGroup(a, b, c, d); Unpack(s[0], s[1], s[2], s[3], s[4]) == [a, b, c, d]
  {
  }

  // Byte i of a row: n / 4 groups of five bytes, then filler.
  function RowByte(samples: nat -> TenBits, n: nat, i: nat): bv8 {
    var g := i / 5;
    if g < n / 4 then PackGroup(samples(4 * g), samples(4 * g + 1), samples(4 * g + 2), samples(4 * g + 3))[i % 5] else 0
  }

  ghost predicate HasRow(bytes: seq<bv8>, row: nat, n: nat, samples: nat -> TenBits) {
    && row + n / 4 * 5 <= |bytes|
    && (forall i: nat {:trigger RowByte(samples, n, i)} :: i < n / 4 * 5 ==> bytes[row + i] == RowByte(samples, n, i))
  }

  lemma HasRowHasGroup(bytes: seq<bv8>, row: nat, n: nat, samples: nat -> TenBits, g: nat)
    requires HasRow(bytes, row, n, samples) && g < n / 4
    ensures row + 5 * g + 4 < |bytes|
    ensures bytes[row + 5 * g..row + 5 * g + 5] == PackGroup(samples(4 * g), samples(4 * g + 1), samples(4 * g + 2), samples(4 * g + 3))
  {
    var q, part := PackGroup(samples(4 * g), samples(4 * g + 1), samples(4 * g + 2), samples(4 * g + 3)), bytes[row + 5 * g..row + 5 * g + 5];
    forall k: nat | k < 5 ensures part[k] == q[k] {
      assert (5 * g + k) / 5 == g && (5 * g + k) % 5 == k;
      assert bytes[row + (5 * g + k)] == RowByte(samples, n, 5 * g + k);
    }
  }

  lemma PackedRowReads(bytes: seq<bv8>, row: nat, n: nat, samples: nat -> TenBits, x: nat)
    requires HasRow(bytes, row, n, samples) && x < n / 4 * 4
    ensures Groups(bytes)(row, n, x) == samples(x) as Sample
  {
    var g := x / 4;
    HasRowHasGroup(bytes, row, n, samples, g);
    UnpackPack(samples(4 * g), samples(4 * g + 1), samples(4 * g + 2), samples(4 * g + 3));
    var s := bytes[row + 5 * g..row + 5 * g + 5];
    assert Unpack4x10(bytes, row + 5 * g)[x % 4] == Unpack(s[0], s[1], s[2], s[3], s[4])[x % 4] as Sample;
    assert x == 4 * g + x % 4;
  }

  // The file of an image whose rows are luma(y) and chroma(y), with U and V interleaved.
  function ImageByte(im: Image, luma: nat -> nat -> TenBits, chroma: nat -> nat -> TenBits, i: nat): bv8
    requires im.stride > 0
  {
    var lumaSize := im.AsLayout().ChromaRow(0);
    if i < lumaSize then RowByte(luma(i / im.stride), im.width, i % im.stride)
    else RowByte(chroma((i - lumaSize) / im.stride), 2 * im.AsLayout().ChromaWidth(), (i - lumaSize) % im.stride)
  }

  ghost predicate Encodes(bytes: seq<bv8>, im: Image, luma: nat -> nat -> TenBits, chroma: nat -> nat -> TenBits) {
    && |bytes| == im.RequiredSize()
    && (im.stride > 0 ==> forall i: nat {:trigger ImageByte(im, luma, chroma, i)} :: i < im.RequiredSize() ==> bytes[i] == ImageByte(im, luma, chroma, i))
  }

  function EncodeImage(im: Image, luma: nat -> nat -> TenBits, chroma: nat -> nat -> TenBits): (bytes: seq<bv8>)
    requires im.stride > 0
    ensures Encodes(bytes, im, luma, chroma)
  {
    seq(im.RequiredSize(), i requires i >= 0 => ImageByte(im, luma, chroma, i))
  }

  lemma RowOffset(stride: nat, y: nat, c: nat)
    requires c < stride
    ensures (y * stride + c) / stride == y && (y * stride + c) % stride == c
  {
    var n := y * stride + c;
    var q, r := n / stride, n % stride;
    assert n == q * stride + r;
    if q > y {
      RowsFit(q, stride, y);
    } else if q < y {
      RowsFit(y, stride, q);
    }
  }

  // Byte i of a row of the file.
  lemma LumaByte(im: Image, luma: nat -> nat -> TenBits, chroma: nat -> nat -> TenBits, y: nat, i: nat)
    requires im.stride > 0 && y < im.height && i < im.stride
    ensures im.AsLayout().LumaRow(y) + i < im.AsLayout().ChromaRow(0) <= im.RequiredSize()
    ensures ImageByte(im, luma, chroma, im.AsLayout().LumaRow(y) + i) == RowByte(luma(y), im.width, i)
  {
    RowsFit(im.height, im.stride, y);
    RowOffset(im.stride, y, i);
    assert im.stride * im.height == im.height * im.stride;
  }

  lemma ChromaByte(im: Image, luma: nat -> nat -> TenBits, chroma: nat -> nat -> TenBits, v: nat, i: nat)
    requires im.stride > 0 && v < im.AsLayout().ChromaHeight() && i < im.stride
    ensures im.AsLayout().ChromaRow(v) + i < im.RequiredSize()
    ensures ImageByte(im, luma, chroma, im.AsLayout().ChromaRow(v) + i) == RowByte(chroma(v), 2 * im.AsLayout().ChromaWidth(), i)
  {
    RowsFit(im.AsLayout().ChromaHeight(), im.stride, v);
    RowOffset(im.stride, v, i);
    assert im.stride * im.height == im.height * im.stride;
  }

  lemma LumaByteOf(bytes: seq<bv8>, im: Image, luma: nat -> nat -> TenBits, chroma: nat -> nat -> TenBits, y: nat, i: nat)
    requires im.stride > 0 && Encodes(bytes, im, luma, chroma) && y < im.height && i < im.stride
    ensures im.AsLayout().LumaRow(y) + i < im.RequiredSize()
    ensures bytes[im.AsLayout().LumaRow(y) + i] == RowByte(luma(y), im.width, i)
  {
    LumaByte(im, luma, chroma, y, i);
    assert bytes[im.AsLayout().LumaRow(y) + i] == ImageByte(im, luma, chroma, im.AsLayout().LumaRow(y) + i);
  }

  lemma ChromaByteOf(bytes: seq<bv8>, im: Image, luma: nat -> nat -> TenBits, chroma: nat -> nat -> TenBits, v: nat, i: nat)
    requires im.stride > 0 && Encodes(bytes, im, luma, chroma) && v < im.AsLayout().ChromaHeight() && i < im.stride
    ensures im.AsLayout().ChromaRow(v) + i < im.RequiredSize()
    ensures bytes[im.AsLayout().ChromaRow(v) + i] == RowByte(chroma(v), 2 * im.AsLayout().ChromaWidth(), i)
  {
    ChromaByte(im, luma, chroma, v, i);
    assert bytes[im.AsLayout().ChromaRow(v) + i] == ImageByte(im, luma, chroma, im.AsLayout().ChromaRow(v) + i);
  }

  // A row whose bytes up to the stride are as packed holds its groups.
  lemma IsThere(bytes: seq<bv8>, row: nat, n: nat, samples: nat -> TenBits, stride: nat)
    requires n / 4 * 5 <= stride && row + stride <= |bytes|
    requires forall i: nat {:trigger RowByte(samples, n, i)} :: i < stride ==> bytes[row + i] == RowByte(samples, n, i)
    ensures HasRow(bytes, row, n, samples)
  {
  }

  lemma LumaRowEncoded(bytes: seq<bv8>, im: Image, luma: nat -> nat -> TenBits, chroma: nat -> nat -> TenBits, y: nat)
    requires im.Wide() && Encodes(bytes, im, luma, chroma) && y < im.height
    ensures HasRow(bytes, im.AsLayout().LumaRow(y), im.width, luma(y))
  {
    var row := im.AsLayout().LumaRow(y);
    LumaSpan(im, y);
    forall i: nat {:trigger RowByte(luma(y), im.width, i)} | i < im.stride ensures bytes[row + i] == RowByte(luma(y), im.width, i) {
      LumaByteOf(bytes, im, luma, chroma, y, i);
    }
    IsThere(bytes, row, im.width, luma(y), im.stride);
  }

  lemma ChromaRowEncoded(bytes: seq<bv8>, im: Image, luma: nat -> nat -> TenBits, chroma: nat -> nat -> TenBits, v: nat)
    requires im.Wide() && Encodes(bytes, im, luma, chroma) && v < im.AsLayout().ChromaHeight()
    ensures HasRow(bytes, im.AsLayout().ChromaRow(v), 2 * im.AsLayout().ChromaWidth(), chroma(v))
  {
    var n := 2 * im.AsLayout().ChromaWidth();
    var row := im.AsLayout().ChromaRow(v);
    ChromaSpan(im, v);
    forall i: nat {:trigger RowByte(chroma(v), n, i)} | i < im.stride ensures bytes[row + i] == RowByte(chroma(v), n, i) {
      ChromaByteOf(bytes, im, luma, chroma, v, i);
    }
    IsThere(bytes, row, n, chroma(v), im.stride);
  }

  lemma PackedChroma(bytes: seq<bv8>, f: Layout, half: nat, v: nat, u: nat, samples: nat -> TenBits)
    requires HasRow(bytes, f.ChromaRow(v), 2 * f.ChromaWidth(), samples) && 2 * u + half < 2 * f.ChromaWidth() / 4 * 4
    ensures Chroma(Groups(bytes), f, half, v, u) == samples(2 * u + half) as Sample
  {
    PackedRowReads(bytes, f.ChromaRow(v), 2 * f.ChromaWidth(), samples, 2 * u + half);
  }

  lemma LumaBack(bytes: seq<bv8>, im: Image, luma: nat -> nat -> TenBits, chroma: nat -> nat -> TenBits, y: nat, x: nat)
    requires im.Wide() && Encodes(bytes, im, luma, chroma) && y < im.height && x < im.width / 4 * 4
    ensures Luma(Groups(bytes), im.AsLayout(), y, x) == luma(y)(x) as Sample
  {
    LumaRowEncoded(bytes, im, luma, chroma, y);
    PackedRowReads(bytes, im.AsLayout().LumaRow(y), im.width, luma(y), x);
  }

  lemma ChromaBack(bytes: seq<bv8>, im: Image, luma: nat -> nat -> TenBits, chroma: nat -> nat -> TenBits, half: nat, v: nat, u: nat)
    requires im.Wide() && Encodes(bytes, im, luma, chroma) && v < im.AsLayout().ChromaHeight()
    requires half < 2 && u < im.AsLayout().ChromaWidth() / 2 * 2
    ensures Chroma(Groups(bytes), im.AsLayout(), half, v, u) == chroma(v)(2 * u + half) as Sample
  {
    ChromaRowEncoded(bytes, im, luma, chroma, v);
    ChromaIndex(im, half, v, u);
    PackedChroma(bytes, im.AsLayout(), half, v, u, chroma(v));
  }

  // Packing, then unpacking: every sample that the readers take comes back.
  lemma LumaDecodeEncode(bytes: seq<bv8>, im: Image, luma: nat -> nat -> TenBits, chroma: nat -> nat -> TenBits, y: nat, x: nat)
    requires im.Wide() && Encodes(bytes, im, luma, chroma) && y < im.height && x < im.width
    ensures DecodedY(im, BitStream(bytes), y, x) == if x < im.width / 4 * 4 then luma(y)(x) as Sample else 0
  {
    GroupsAreBitStream(bytes);
    LumaDecoded(im, Groups(bytes), BitStream(bytes), y, x);
    if x < im.width / 4 * 4 {
      LumaBack(bytes, im, luma, chroma, y, x);
    }
  }

  lemma ChromaComes(im: Image, packed: (nat, nat, nat) -> Sample, stream: nat -> Sample, half: nat, y: nat, x: nat, inside: bool, want: Sample)
    requires im.Wide() && Agree(packed, stream, im.RequiredSize()) && half < 2
    requires inside == (im.Down(y) < im.AsLayout().ChromaHeight() && x / 2 < im.width / 2 / 2 * 2)
    requires inside ==> Chroma(packed, im.AsLayout(), half, im.Down(y), x / 2) == want
    ensures DecodedChroma(im, stream, half, y, x) == if inside then want else 0
  {
    ChromaDecoded(im, packed, stream, half, y, x);
  }

  lemma ChromaOfBytes(im: Image, bytes: seq<bv8>, half: nat, y: nat, x: nat, inside: bool, want: Sample)
    requires im.Wide() && |bytes| == im.RequiredSize() && half < 2
    requires inside == (im.Down(y) < im.AsLayout().ChromaHeight() && x / 2 < im.width / 2 / 2 * 2)
    requires inside ==> Chroma(Groups(bytes), im.AsLayout(), half, im.Down(y), x / 2) == want
    ensures DecodedChroma(im, BitStream(bytes), half, y, x) == if inside then want else 0
  {
    GroupsAreBitStream(bytes);
    ChromaComes(im, Groups(bytes), BitStream(bytes), half, y, x, inside, want);
  }

  lemma ChromaDecodeEncode(bytes: seq<bv8>, im: Image, luma: nat -> nat -> TenBits, chroma: nat -> nat -> TenBits, half: nat, y: nat, x: nat)
    requires im.Wide() && Encodes(bytes, im, luma, chroma) && y < im.height && x < im.width && half < 2
    ensures DecodedChroma(im, BitStream(bytes), half, y, x)
         == if im.Down(y) < im.AsLayout().ChromaHeight() && x / 2 < im.width / 2 / 2 * 2
            then chroma(im.Down(y))(2 * (x / 2) + half) as Sample else 0
  {
    var v, u := im.Down(y), x / 2;
    if v < im.AsLayout().ChromaHeight() && u < im.width / 2 / 2 * 2 {
      ChromaBack(bytes, im, luma, chroma, half, v, u);
      ChromaOfBytes(im, bytes, half, y, x, true, Chroma(Groups(bytes), im.AsLayout(), half, v, u));
    } else {
      ChromaOfBytes(im, bytes, half, y, x, false, 0);
    }
  }

  lemma FitPrefix(bytes: seq<bv8>, tail: seq<bv8>)
    ensures Fit(bytes + tail, |bytes|) == bytes
  {
  }

  /** A file that begins with an encoded image decodes to it, whatever bytes come behind. */
  lemma FileDecodeEncode(tail: seq<bv8>, im: Image, luma: nat -> nat -> TenBits, chroma: nat -> nat -> TenBits, y: nat, x: nat)
    requires im.Wide() && im.stride > 0 && y < im.height && x < im.width
    ensures var stream := BitStream(Fit(EncodeImage(im, luma, chroma) + tail, im.RequiredSize()));
            var inside := im.Down(y) < im.AsLayout().ChromaHeight() && x / 2 < im.width / 2 / 2 * 2;
            && DecodedY(im, stream, y, x) == (if x < im.width / 4 * 4 then luma(y)(x) as Sample else 0)
            && DecodedChroma(im, stream, 0, y, x) == (if inside then chroma(im.Down(y))(2 * (x / 2)) as Sample else 0)
            && DecodedChroma(im, stream, 1, y, x) == (if inside then chroma(im.Down(y))(2 * (x / 2) + 1) as Sample else 0)
  {
    var bytes := EncodeImage(im, luma, chroma);
    FitPrefix(bytes, tail);
    LumaDecodeEncode(bytes, im, luma, chroma, y, x);
    ChromaDecodeEncode(bytes, im, luma, chroma, 0, y, x);
    ChromaDecodeEncode(bytes, im, luma, chroma, 1, y, x);
  }
}
