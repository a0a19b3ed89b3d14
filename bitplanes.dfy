/** The rasterisation step of `render` (src/display.rs): the alpha channel of
    each RGBA pixel is quantised to one of four gray levels, and every run of
    up to eight pixels becomes one byte of each of two bit planes, most
    significant bit first. A pixel's bit is set in plane 1 when bit 0 of its
    level is clear, and in plane 2 when bit 1 of its level is clear. */
module BitPlanes {
  import opened Bytes

  /** `0x80 >> index` for each pixel of a group (see `MaskIsShift`). */
  const Masks: seq<byte> := [0x80, 0x40, 0x20, 0x10, 0x08, 0x04, 0x02, 0x01]

  /** The bit of the `index`-th pixel of a group. */
  function Mask(index: nat): byte
    requires index < 8
  {
    Masks[index]
  }

  lemma MaskIsShift(index: nat)
    requires index < 8
    ensures Mask(index) == 0x80 >> index
  {
    match index
    case 0 => case 1 => case 2 => case 3 => case 4 => case 5 => case 6 => case 7 =>
  }

  predicate Bit(b: byte, index: nat)
    requires index < 8
  {
    b & Mask(index) != 0
  }

  /** The two planes, numbered as the registers they are written to. */
  type Plane = p: nat | p == 1 || p == 2 witness 1

  /** Plane `plane` of a pair of planes. */
  function PlaneOf(planes: (seq<byte>, seq<byte>), plane: Plane): seq<byte> {
    if plane == 1 then planes.0 else planes.1
  }

  /** The byte for plane `plane` of a packed group. */
  function ByteOf(group: (byte, byte), plane: Plane): byte {
    if plane == 1 then group.0 else group.1
  }

  /** The bit of a gray level whose clearing plane `plane` records. */
  function LevelBit(plane: Plane): byte {
    if plane == 1 then 0x01 else 0x02
  }

  // ---------------------------------------------------------------------
  // Quantisation: `(alpha as f64 / 255. * 3.).round() as u8`

  /** `round(alpha * 3 / 255)`, by the alpha values where the rounded
      quotient steps up (42.5, 127.5 and 212.5 are where it crosses a half);
      see `QuantizeRounds`. */
  function Quantize(alpha: byte): (level: byte)
    ensures level < 4
  {
    if alpha <= 42 then 0 else if alpha <= 127 then 1 else if alpha <= 212 then 2 else 3
  }

  /** The level is the integer nearest to `alpha * 3 / 255`: twice the
      distance `|3 * alpha - 255 * level|` is at most 255. The quotient is
      never exactly halfway between two integers (that would need
      `6 * alpha` to be an odd multiple of 255), so there is no tie for
      `round` to break. */
  lemma QuantizeRounds(alpha: byte)
    ensures -255 <= 6 * (alpha as int) - 510 * (Quantize(alpha) as int) <= 255
    ensures (Quantize(alpha) as int) == (6 * (alpha as int) + 255) / 510
  {
  }

  /** Transparent pixels are level 0, opaque ones level 3, and a more opaque
      pixel never gets a lower level. */
  lemma QuantizeMonotone(a: byte, b: byte)
    requires a <= b
    ensures Quantize(a) <= Quantize(b)
    ensures Quantize(0) == 0 && Quantize(255) == 3
  {
  }

  // ---------------------------------------------------------------------
  // Packing

  /** The pair the inner `map` closure yields for one pixel. */
  function PixelBits(index: nat, level: byte): (byte, byte)
    requires index < 8
  {
    (if level & 0x01 == 0x01 then 0 else Mask(index),
     if level & 0x02 == 0x02 then 0 else Mask(index))
  }

  /** The `fold` of one group with bitwise or, from the pair (0, 0). */
  function PackGroup(group: seq<byte>): (byte, byte)
    requires |group| <= 8
    decreases |group|
  {
    if group == [] then (0, 0)
    else
      var acc := PackGroup(group[..|group| - 1]);
      var bits := PixelBits(|group| - 1, group[|group| - 1]);
      (acc.0 | bits.0, acc.1 | bits.1)
  }

  /** `chunks_exact(4)` of up to 32 raw bytes, each pixel quantised by its
      alpha byte; a trailing partial pixel is dropped. */
  function PixelLevels(chunk: seq<byte>): (levels: seq<byte>)
    ensures |levels| == |chunk| / 4
  {
    seq(|chunk| / 4, j requires 0 <= j < |chunk| / 4 => Quantize(chunk[4 * j + 3]))
  }

  /** The whole pipeline on the raw RGBA buffer: `chunks(32)`, one packed
      group per chunk, unzipped into the two planes. */
  function PackPixels(raw: seq<byte>): (planes: (seq<byte>, seq<byte>))
    ensures |planes.0| == |planes.1| == (|raw| + 31) / 32
    decreases |raw|
  {
    if raw == [] then ([], [])
    else
      var n := if |raw| < 32 then |raw| else 32;
      var group := PackGroup(PixelLevels(raw[..n]));
      var rest := PackPixels(raw[n..]);
      ([group.0] + rest.0, [group.1] + rest.1)
  }

  /** The gray level of every whole pixel of a raw buffer. */
  function AlphaLevels(raw: seq<byte>): (levels: seq<byte>)
    ensures |levels| == |raw| / 4
  {
    seq(|raw| / 4, p requires 0 <= p < |raw| / 4 => Quantize(raw[4 * p + 3]))
  }

  /** The same packing stated on gray levels: groups of eight levels. */
  function PackPlanes(levels: seq<byte>): (planes: (seq<byte>, seq<byte>))
    ensures |planes.0| == |planes.1| == (|levels| + 7) / 8
    decreases |levels|
  {
    if levels == [] then ([], [])
    else
      var n := if |levels| < 8 then |levels| else 8;
      var group := PackGroup(levels[..n]);
      var rest := PackPlanes(levels[n..]);
      ([group.0] + rest.0, [group.1] + rest.1)
  }

  /** For a buffer of whole pixels, the raw pipeline packs exactly the
      quantised levels. */
  lemma {:induction false} PackPixelsLevels(raw: seq<byte>)
    requires |raw| % 4 == 0
    ensures PackPixels(raw) == PackPlanes(AlphaLevels(raw))
    decreases |raw|
  {
    if raw != [] {
      var n := if |raw| < 32 then |raw| else 32;
      var levels := AlphaLevels(raw);
      var m := if |levels| < 8 then |levels| else 8;
      assert PixelLevels(raw[..n]) == levels[..m];
      assert AlphaLevels(raw[n..]) == levels[m..];
      PackPixelsLevels(raw[n..]);
    }
  }

  // ---------------------------------------------------------------------
  // What the planes say about each pixel

  /** A bit of an `|` is set iff it is set in either operand. */
  lemma OrBit(x: byte, y: byte, index: nat)
    requires index < 8
    ensures Bit(x | y, index) <==> Bit(x, index) || Bit(y, index)
  {
    var m := Mask(index);
    assert (x | y) & m == (x & m) | (y & m);
  }

  /** `0x80 >> j` has exactly bit `j` set. */
  lemma MaskBit(j: nat, index: nat)
    requires j < 8 && index < 8
    ensures Bit(Mask(j), index) <==> j == index
  {
  }

  /** The bits a single pixel contributes. */
  lemma PixelBit(j: nat, level: byte, index: nat, plane: Plane)
    requires j < 8 && index < 8
    ensures Bit(ByteOf(PixelBits(j, level), plane), index) <==> j == index && level & LevelBit(plane) == 0
  {
    MaskBit(j, index);
    assert !Bit(0, index);
    assert level & LevelBit(plane) != LevelBit(plane) <==> level & LevelBit(plane) == 0;
  }

  /** The fold ors the last pixel's bits into those of the pixels before. */
  lemma FoldLast(group: seq<byte>, plane: Plane)
    requires 0 < |group| <= 8
    ensures ByteOf(PackGroup(group), plane)
            == ByteOf(PackGroup(group[..|group| - 1]), plane) | ByteOf(PixelBits(|group| - 1, group[|group| - 1]), plane)
  {
  }

  /** Folding in the last pixel of a group sets its bit and keeps the
      others. */
  lemma GroupStep(group: seq<byte>, index: nat, plane: Plane)
    requires 0 < |group| <= 8 && index < 8
    ensures Bit(ByteOf(PackGroup(group), plane), index)
            <==> Bit(ByteOf(PackGroup(group[..|group| - 1]), plane), index)
                 || (index == |group| - 1 && group[index] & LevelBit(plane) == 0)
  {
    var last := |group| - 1;
    var acc := PackGroup(group[..last]);
    var bits := PixelBits(last, group[last]);
    FoldLast(group, plane);
    OrBit(ByteOf(acc, plane), ByteOf(bits, plane), index);
    PixelBit(last, group[last], index, plane);
  }

  /** A bit of a packed group is set exactly for a pixel of the group whose
      level has the plane's bit clear; bits past the group stay clear. */
  lemma {:induction false} GroupBits(group: seq<byte>, index: nat, plane: Plane)
    requires |group| <= 8 && index < 8
    ensures Bit(ByteOf(PackGroup(group), plane), index)
            <==> index < |group| && group[index] & LevelBit(plane) == 0
    decreases |group|
  {
    if group == [] {
      assert !Bit(0, index);
    } else {
      var init := group[..|group| - 1];
      GroupBits(init, index, plane);
      GroupStep(group, index, plane);
      if index < |init| {
        assert init[index] == group[index];
      }
    }
  }

  /** Byte 0 of a plane packs the first eight levels; byte `k + 1` is byte
      `k` of the plane of the levels after them. */
  lemma PlaneByte(levels: seq<byte>, k: nat, plane: Plane)
    requires k < (|levels| + 7) / 8
    ensures k == 0 ==> PlaneOf(PackPlanes(levels), plane)[k]
                       == ByteOf(PackGroup(levels[..if |levels| < 8 then |levels| else 8]), plane)
    ensures k > 0 ==> |levels| > 8 && PlaneOf(PackPlanes(levels), plane)[k] == PlaneOf(PackPlanes(levels[8..]), plane)[k - 1]
  {
  }

  /** Per pixel: bit `0x80 >> i` of byte `k` of a plane is set iff pixel
      `8 * k + i` has that plane's bit clear in its level. */
  lemma {:induction false} PlaneBits(levels: seq<byte>, k: nat, i: nat, plane: Plane)
    requires i < 8 && 8 * k + i < |levels|
    ensures Bit(PlaneOf(PackPlanes(levels), plane)[k], i) <==> levels[8 * k + i] & LevelBit(plane) == 0
    decreases |levels|
  {
    if k == 0 {
      PlaneByte(levels, k, plane);
      GroupBits(levels[..if |levels| < 8 then |levels| else 8], i, plane);
    } else {
      var rest := levels[8..];
      assert rest[8 * (k - 1) + i] == levels[8 * k + i];
      PlaneByte(levels, k, plane);
      PlaneBits(rest, k - 1, i, plane);
    }
  }

  /** The bits of the last byte that stand for no pixel are clear. */
  lemma {:induction false} PaddingBits(levels: seq<byte>, k: nat, i: nat, plane: Plane)
    requires i < 8 && |levels| <= 8 * k + i && k < (|levels| + 7) / 8
    ensures !Bit(PlaneOf(PackPlanes(levels), plane)[k], i)
    decreases |levels|
  {
    PlaneByte(levels, k, plane);
    if k == 0 {
      GroupBits(levels[..if |levels| < 8 then |levels| else 8], i, plane);
    } else {
      PaddingBits(levels[8..], k - 1, i, plane);
    }
  }

  /** The controller's reading of the two planes: a set bit in plane 1 means
      level bit 0 is clear, a set bit in plane 2 means level bit 1 is clear. */
  function UnpackLevels(plane1: seq<byte>, plane2: seq<byte>, n: nat): (levels: seq<byte>)
    requires n <= 8 * |plane1| && n <= 8 * |plane2|
    ensures |levels| == n && forall p :: 0 <= p < n ==> levels[p] < 4
  {
    seq(n, p requires 0 <= p < n =>
      (if Bit(plane1[p / 8], p % 8) then 0x00 else 0x01) | (if Bit(plane2[p / 8], p % 8) then 0x00 else 0x02))
  }

  /** Packing loses nothing: every level in 0..3 is recovered from its two
      bits. */
  lemma PackRoundTrip(levels: seq<byte>)
    requires forall p :: 0 <= p < |levels| ==> levels[p] < 4
    ensures UnpackLevels(PackPlanes(levels).0, PackPlanes(levels).1, |levels|) == levels
  {
    var planes := PackPlanes(levels);
    var back := UnpackLevels(planes.0, planes.1, |levels|);
    forall p | 0 <= p < |levels|
      ensures back[p] == levels[p]
    {
      assert p == 8 * (p / 8) + p % 8;
      PlaneBits(levels, p / 8, p % 8, 1);
      PlaneBits(levels, p / 8, p % 8, 2);
      var l := levels[p];
      assert l < 4 ==> ((if l & 0x01 == 0 then 0x00 else 0x01) | (if l & 0x02 == 0 then 0x00 else 0x02)) == l;
    }
  }

  /** A byte with all eight pixel bits set is 0xFF. */
  lemma AllBitsSet(b: byte)
    requires forall i :: 0 <= i < 8 ==> Bit(b, i)
    ensures b == 0xFF
  {
    assert Bit(b, 0) && Bit(b, 1) && Bit(b, 2) && Bit(b, 3);
    assert Bit(b, 4) && Bit(b, 5) && Bit(b, 6) && Bit(b, 7);
  }

  /** Level-0 pixels filling whole bytes pack to 0xFF in a plane. */
  lemma ZeroLevelsPlane(m: nat, plane: Plane)
    ensures PlaneOf(PackPlanes(seq(8 * m, _ => 0x00)), plane) == seq(m, _ => 0xFF)
  {
    var levels: seq<byte> := seq(8 * m, _ => 0x00);
    var bytes := PlaneOf(PackPlanes(levels), plane);
    forall k | 0 <= k < m
      ensures bytes[k] == 0xFF
    {
      forall i | 0 <= i < 8
        ensures Bit(bytes[k], i)
      {
        PlaneBits(levels, k, i, plane);
      }
      AllBitsSet(bytes[k]);
    }
  }

  /** A fully transparent raster quantises to level 0 everywhere. */
  lemma TransparentLevels(n: nat)
    ensures AlphaLevels(seq(4 * n, _ => 0x00)) == seq(n, _ => 0x00)
  {
  }

  /** A fully transparent raster of whole bytes of pixels packs to 0xFF in
      both planes. */
  lemma TransparentPacksToFullBytes(m: nat)
    ensures PackPixels(seq(32 * m, _ => 0x00)) == (seq(m, _ => 0xFF), seq(m, _ => 0xFF))
  {
    var n := 8 * m;
    var raw: seq<byte> := seq(4 * n, _ => 0x00);
    assert (4 * n) % 4 == 0;
    PackPixelsLevels(raw);
    TransparentLevels(n);
    assert raw == seq(32 * m, _ => 0x00);
    ZeroLevelsPlane(m, 1);
    ZeroLevelsPlane(m, 2);
  }
}
