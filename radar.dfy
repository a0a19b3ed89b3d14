/** The radar layers of src/image.rs: the three palette callbacks passed to
    `draw_gif` by `draw_weather_radar`, and the expansion of a frame of
    palette indices into RGBA bytes in `draw_gif`. A `HashMap<u8, [u8; 4]>`
    is a `map<u8, Rgba>`; the GIF decoding that supplies the frame, the
    global palette and the background index is not part of this model. */
module RadarLayers {
  import opened Wrappers

  type u8 = x: int | 0 <= x < 0x100

  /** `[u8; 4]`: red, green, blue, alpha. */
  type Rgba = s: seq<u8> | |s| == 4 witness [0, 0, 0, 0]

  const Transparent: Rgba := [0, 0, 0, 0]

  /** `palette.get(index).unwrap_or(&[0x00; 4])`. */
  function Lookup(palette: map<u8, Rgba>, index: u8): Rgba {
    if index in palette then palette[index] else Transparent
  }

  /** The last insert for the background index wins: it is transparent. */
  function WithBackground(palette: map<u8, Rgba>, background: Option<u8>): map<u8, Rgba> {
    if background.Some? then palette[background.value := Transparent] else palette
  }

  // ---------------------------------------------------------------------
  // The expansion in `draw_gif`

  /** `for index in frame.buffer.iter() { buffer.extend_from_slice(..) }`:
      four bytes per pixel, transparent for an index the palette lacks. */
  method Expand(frame: seq<u8>, palette: map<u8, Rgba>) returns (buffer: seq<u8>)
    ensures |buffer| == 4 * |frame|
    ensures forall p :: 0 <= p < |buffer| ==> buffer[p] == Lookup(palette, frame[p / 4])[p % 4]
  {
    buffer := [];
    var i := 0;
    while i < |frame|
      invariant 0 <= i <= |frame|
      invariant |buffer| == 4 * i
      invariant forall p :: 0 <= p < |buffer| ==> buffer[p] == Lookup(palette, frame[p / 4])[p % 4]
    {
      var colour := Lookup(palette, frame[i]);
      ExtendPixel(buffer, colour, i);
      buffer := buffer + colour;
      i := i + 1;
    }
  }

  /** The four bytes appended for pixel `i` land at positions `4i..4i+3`. */
  lemma ExtendPixel(buffer: seq<u8>, colour: Rgba, i: nat)
    requires |buffer| == 4 * i
    ensures forall p :: |buffer| <= p < |buffer| + 4 ==> p / 4 == i && (buffer + colour)[p] == colour[p % 4]
  {
  }

  // ---------------------------------------------------------------------
  // The rivers and towns layers

  /** Number of elements `step_by(3)` yields from a slice of length `n`. */
  function EveryThird(n: nat): nat {
    (n + 2) / 3
  }

  /** Rivers: grey, as opaque as the entry's first byte is dark. */
  function RiverColour(imagePalette: seq<u8>, i: nat): Rgba
    requires 3 * i < |imagePalette|
  {
    [0x80, 0x80, 0x80, 0xFF - imagePalette[3 * i]]
  }

  /** Towns: the entry's own colour, opaque. */
  function TownColour(imagePalette: seq<u8>, i: nat): Rgba
    requires 3 * i + 2 < |imagePalette|
  {
    [imagePalette[3 * i], imagePalette[3 * i + 1], imagePalette[3 * i + 2], 0xFF]
  }

  /** The palette of the rivers callback, read per index. */
  function RiversOf(imagePalette: seq<u8>, background: Option<u8>): map<u8, Rgba>
    requires |imagePalette| <= 768
  {
    WithBackground(map i: u8 | i < EveryThird(|imagePalette|) :: RiverColour(imagePalette, i), background)
  }

  /** The palette of the towns callback, read per index. */
  function TownsOf(imagePalette: seq<u8>, background: Option<u8>): map<u8, Rgba>
    requires |imagePalette| <= 768
  {
    WithBackground(map i: u8 | i < |imagePalette| / 3 :: TownColour(imagePalette, i), background)
  }

  /** The rivers callback. A GIF global colour table has at most 256
      entries of three bytes, so `index as u8` never wraps. */
  method RiversPalette(imagePalette: seq<u8>, background: Option<u8>) returns (palette: map<u8, Rgba>)
    requires |imagePalette| <= 768
    ensures palette == RiversOf(imagePalette, background)
  {
    palette := map[];
    var index := 0;
    while 3 * index < |imagePalette|
      invariant 0 <= index <= EveryThird(|imagePalette|) && index <= 0x100
      invariant palette == map i: u8 | i < index :: RiverColour(imagePalette, i)
    {
      palette := palette[index := RiverColour(imagePalette, index)];
      index := index + 1;
    }
    palette := WithBackground(palette, background);
  }

  /** The towns callback; `chunks_exact(3)` drops a trailing partial
      entry. */
  method TownsPalette(imagePalette: seq<u8>, background: Option<u8>) returns (palette: map<u8, Rgba>)
    requires |imagePalette| <= 768
    ensures palette == TownsOf(imagePalette, background)
  {
    palette := map[];
    var index := 0;
    while 3 * index + 2 < |imagePalette|
      invariant 0 <= index <= |imagePalette| / 3 && index <= 0x100
      invariant palette == map i: u8 | i < index :: TownColour(imagePalette, i)
    {
      palette := palette[index := TownColour(imagePalette, index)];
      index := index + 1;
    }
    palette := WithBackground(palette, background);
  }

  /** What a rivers pixel becomes: transparent for the background and for
      an index past the table, grey with the inverted first byte as alpha
      otherwise. */
  lemma RiversPixel(imagePalette: seq<u8>, background: Option<u8>, index: u8)
    requires |imagePalette| <= 768
    ensures Lookup(RiversOf(imagePalette, background), index)
            == if background == Some(index) || 3 * index >= |imagePalette| then Transparent
               else [0x80, 0x80, 0x80, 0xFF - imagePalette[3 * index]]
  {
    assert index < EveryThird(|imagePalette|) <==> 3 * index < |imagePalette|;
  }

  /** What a towns pixel becomes: transparent for the background and for an
      index without a whole entry, the entry's colour, opaque, otherwise. */
  lemma TownsPixel(imagePalette: seq<u8>, background: Option<u8>, index: u8)
    requires |imagePalette| <= 768
    ensures Lookup(TownsOf(imagePalette, background), index)
            == if background == Some(index) || 3 * index + 2 >= |imagePalette| then Transparent
               else [imagePalette[3 * index], imagePalette[3 * index + 1], imagePalette[3 * index + 2], 0xFF]
  {
    assert index < |imagePalette| / 3 <==> 3 * index + 2 < |imagePalette|;
  }

  // ---------------------------------------------------------------------
  // The precipitation layer

  /** The colour scale of the radar image is read from column 524 of the
      frame, one pixel per row. */
  const ScaleStart: nat := 524

  /** `buffer.iter().skip(start).step_by(width)`. */
  function Samples(buffer: seq<u8>, width: nat, start: nat): seq<u8>
    requires width > 0
    decreases |buffer| - start
  {
    if start >= |buffer| then [] else [buffer[start]] + Samples(buffer, width, start + width)
  }

  /** Sample `k` is the pixel `k` rows below the start, ... */
  lemma {:induction false} SampleAt(buffer: seq<u8>, width: nat, start: nat, k: nat)
    requires width > 0 && k < |Samples(buffer, width, start)|
    ensures start + k * width < |buffer| && Samples(buffer, width, start)[k] == buffer[start + k * width]
    decreases k
  {
    if k > 0 {
      SampleAt(buffer, width, start + width, k - 1);
      assert k * width == width + (k - 1) * width;
    }
  }

  /** ... and the samples run to the end of the frame. */
  lemma {:induction false} SamplesCover(buffer: seq<u8>, width: nat, start: nat)
    requires width > 0
    ensures start + |Samples(buffer, width, start)| * width >= |buffer|
    decreases |buffer| - start
  {
    if start < |buffer| {
      var n := |Samples(buffer, width, start + width)|;
      SamplesCover(buffer, width, start + width);
      assert (n + 1) * width == n * width + width;
    }
  }

  predicate NoDuplicates(s: seq<u8>) {
    forall i, j :: 0 <= i < j < |s| ==> s[i] != s[j]
  }

  /** `if !scale.contains(&pixel) { scale.push(pixel) }` over `xs`,
      starting from `seen`. */
  function DedupFrom(seen: seq<u8>, xs: seq<u8>): seq<u8>
    decreases |xs|
  {
    if xs == [] then seen
    else DedupFrom(if xs[0] in seen then seen else seen + [xs[0]], xs[1..])
  }

  function Dedup(xs: seq<u8>): seq<u8> {
    DedupFrom([], xs)
  }

  /** The scale never holds a value twice ... */
  lemma {:induction false} DedupNoDuplicates(seen: seq<u8>, xs: seq<u8>)
    requires NoDuplicates(seen)
    ensures NoDuplicates(DedupFrom(seen, xs))
    decreases |xs|
  {
    if xs != [] {
      var next := if xs[0] in seen then seen else seen + [xs[0]];
      DedupNoDuplicates(next, xs[1..]);
    }
  }

  /** ... holds every sampled value ... */
  lemma {:induction false} DedupElements(seen: seq<u8>, xs: seq<u8>)
    ensures forall x :: x in DedupFrom(seen, xs) <==> x in seen || x in xs
    decreases |xs|
  {
    if xs != [] {
      var next := if xs[0] in seen then seen else seen + [xs[0]];
      DedupElements(next, xs[1..]);
      assert xs == [xs[0]] + xs[1..];
    }
  }

  /** ... and lists them in the order they first occur: a later sample adds
      its value at the end, and only if the value is new. */
  lemma {:induction false} DedupSnoc(seen: seq<u8>, xs: seq<u8>, x: u8)
    ensures DedupFrom(seen, xs + [x])
            == (var r := DedupFrom(seen, xs); if x in seen || x in xs then r else r + [x])
    decreases |xs|
  {
    if xs == [] {
      assert [x][1..] == [];
    } else {
      var next := if xs[0] in seen then seen else seen + [xs[0]];
      assert (xs + [x])[0] == xs[0] && (xs + [x])[1..] == xs[1..] + [x];
      DedupSnoc(next, xs[1..], x);
      assert xs == [xs[0]] + xs[1..];
    }
  }

  /** The scale the callback collects. */
  method CollectScale(buffer: seq<u8>, width: nat) returns (scale: seq<u8>)
    requires width > 0
    ensures scale == Dedup(Samples(buffer, width, ScaleStart))
  {
    scale := [];
    var i := ScaleStart;
    while i < |buffer|
      invariant DedupFrom(scale, Samples(buffer, width, i)) == Dedup(Samples(buffer, width, ScaleStart))
      decreases |buffer| - i
    {
      if buffer[i] !in scale {
        scale := scale + [buffer[i]];
      }
      i := i + width;
    }
  }

  /** The alpha the `k`-th pop (0-based) gives: 0x55, 0x7F, 0xA9, 0xD3,
      0xFD from `(0x55..0xFF).step_by(0x2a)`, then 0xFF. */
  function PopAlpha(k: nat): u8 {
    if k < 5 then 0x55 + 0x2A * k else 0xFF
  }

  /** How many values the two loops pop from a scale of `n`: up to five in
      the `for`, then at least one more when any is left, and more while at
      least four remain after the pop. */
  function Pops(n: nat): (pops: nat)
    ensures pops <= n
  {
    if n <= 5 then n else if n - 3 < 6 then 6 else n - 3
  }

  /** The palette after the first `k` pops: pop `j` takes the value `j`
      places from the end and inserts it with alpha `PopAlpha(j)`. */
  function Popped(scale: seq<u8>, k: nat): map<u8, Rgba>
    requires k <= |scale|
  {
    if k == 0 then map[]
    else Popped(scale, k - 1)[scale[|scale| - k] := [0, 0, 0, PopAlpha(k - 1)]]
  }

  /** The two pop loops. */
  method AssignAlphas(scale: seq<u8>) returns (palette: map<u8, Rgba>)
    ensures palette == Popped(scale, Pops(|scale|))
  {
    var rest := scale;
    ghost var k := 0;
    ghost var step := 0;
    palette := map[];
    var alpha: int := 0x55;
    while alpha < 0xFF
      invariant 0 <= step <= 5 && alpha == 0x55 + 0x2A * step
      invariant k == if step < |scale| then step else |scale|
      invariant rest == scale[..|scale| - k]
      invariant palette == Popped(scale, k)
    {
      if rest != [] {
        var index := rest[|rest| - 1];
        rest := rest[..|rest| - 1];
        palette := palette[index := [0, 0, 0, alpha]];
        k := k + 1;
      }
      alpha := alpha + 0x2A;
      step := step + 1;
    }
    while rest != []
      invariant k == |scale| - |rest| && (|scale| <= 5 ==> k == |scale|) && (|scale| > 5 ==> k >= 5)
      invariant k > 5 ==> |rest| >= 4
      invariant rest == scale[..|scale| - k]
      invariant palette == Popped(scale, k)
    {
      var index := rest[|rest| - 1];
      rest := rest[..|rest| - 1];
      palette := palette[index := [0, 0, 0, 0xFF]];
      k := k + 1;
      if |rest| < 4 {
        break;
      }
    }
  }

  /** The precipitation callback: the scale read from the frame, its
      values popped from the end. `step_by(0)` panics, so the frame must
      have a width. */
  method PrecipitationPalette(buffer: seq<u8>, width: nat) returns (palette: map<u8, Rgba>)
    requires width > 0
    ensures NoDuplicates(Dedup(Samples(buffer, width, ScaleStart)))
    ensures palette == Popped(Dedup(Samples(buffer, width, ScaleStart)), Pops(|Dedup(Samples(buffer, width, ScaleStart))|))
  {
    var scale := CollectScale(buffer, width);
    DedupNoDuplicates([], Samples(buffer, width, ScaleStart));
    palette := AssignAlphas(scale);
  }

  /** The keys after `k` pops are the last `k` values of the scale, ... */
  lemma {:induction false} PoppedKeys(scale: seq<u8>, k: nat)
    requires k <= |scale|
    ensures forall x :: x in Popped(scale, k) <==> x in scale[|scale| - k..]
    decreases k
  {
    if k > 0 {
      PoppedKeys(scale, k - 1);
      assert scale[|scale| - k..] == [scale[|scale| - k]] + scale[|scale| - (k - 1)..];
    }
  }

  /** ... and, when the scale repeats no value, the value `j` places from
      the end carries the alpha of pop `j`. */
  lemma {:induction false} PoppedValue(scale: seq<u8>, k: nat, j: nat)
    requires NoDuplicates(scale) && j < k <= |scale|
    ensures scale[|scale| - 1 - j] in Popped(scale, k)
    ensures Popped(scale, k)[scale[|scale| - 1 - j]] == [0, 0, 0, PopAlpha(j)]
    decreases k
  {
    if j < k - 1 {
      PoppedValue(scale, k - 1, j);
    }
  }

  /** The precipitation palette: the first five pops take the five alphas
      in order and every later pop is opaque; the values left unpopped are
      the first ones of the scale and stay transparent. A scale of more
      than five values keeps at most three of them. */
  lemma PoppedEntries(scale: seq<u8>, j: nat)
    requires NoDuplicates(scale) && j < |scale|
    ensures var k := Pops(|scale|);
            Lookup(Popped(scale, k), scale[|scale| - 1 - j]) == if j < k then [0, 0, 0, PopAlpha(j)] else Transparent
    ensures |scale| - Pops(|scale|) == if |scale| <= 5 then 0 else if |scale| <= 9 then |scale| - 6 else 3
  {
    var k := Pops(|scale|);
    if j < k {
      PoppedValue(scale, k, j);
    } else {
      PoppedKeys(scale, k);
      var x := scale[|scale| - 1 - j];
      forall i | |scale| - k <= i < |scale| ensures scale[i] != x {
      }
      assert x !in scale[|scale| - k..];
    }
  }

  lemma PopAlphaValues()
    ensures [PopAlpha(0), PopAlpha(1), PopAlpha(2), PopAlpha(3), PopAlpha(4), PopAlpha(5)]
            == [0x55, 0x7F, 0xA9, 0xD3, 0xFD, 0xFF]
  {
  }
}
