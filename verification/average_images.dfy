/**
 * The "average images" node: every channel of the output is the sum of that
 * channel over all input images, divided by the number of images and truncated
 * to an 8-bit value: a plain arithmetic mean.
 */
module AverageImages {
  import opened Results
  import opened Raster
  import opened Accumulator

  /** `q` is the mean `s` / `n` rounded down: the largest `q` with `q` * `n` <= `s`. */
  predicate IsFloorMean(q: int, s: int, n: int)
  {
    q * n <= s < (q + 1) * n
  }

  /** Multiplying both sides by a non-negative factor keeps `a` <= `b`. */
  lemma MulMonotone(a: int, b: int, n: int)
    requires a <= b && 0 <= n
    ensures a * n <= b * n
  {
  }

  /** A positive factor can be cancelled from both sides of <=. */
  lemma MulCancel(a: int, b: int, n: int)
    requires 0 < n && a * n <= b * n
    ensures a <= b
  {
  }

  /** There is only one floor mean of `s` over `n`. */
  lemma FloorMeanUnique(q1: int, q2: int, s: int, n: int)
    requires 0 < n && IsFloorMean(q1, s, n) && IsFloorMean(q2, s, n)
    ensures q1 == q2
  {
  }

  /**
   * One output channel: the accumulated value divided by the image count and
   * converted to an 8-bit integer. The value fits in 8 bits whenever the sum
   * is at most 255 per image, so the conversion never wraps. The node divides
   * in double precision and truncates; that agrees with exact floor division as
   * long as the quotient is computed exactly enough, which holds for any
   * realistic image count (well below 2^45 images).
   */
  function Quantize(s: nat, n: nat): (q: nat)
    requires 0 < n
    ensures IsFloorMean(q, s, n)
    ensures s <= ChannelMax * n ==> q <= ChannelMax
  {
    var q := s / n;
    assert q * n <= s < (q + 1) * n;
    if s <= ChannelMax * n then
      MulCancel(q, ChannelMax, n);
      q
    else
      q
  }

  /** Division of the whole accumulator by the image count, then conversion to 8 bits. */
  function Normalize(acc: Grid, h: nat, w: nat, n: nat): (r: Grid)
    requires HasShape(acc, h, w) && 0 < n
    ensures HasShape(r, h, w)
    ensures forall y, x, c :: 0 <= y < h && 0 <= x < w && 0 <= c < Channels ==>
              IsFloorMean(r[y][x][c], acc[y][x][c], n)
  {
    seq(h, (y: int) requires 0 <= y < h =>
      seq(w, (x: int) requires 0 <= x < w =>
        seq(Channels, (c: int) requires 0 <= c < Channels => Quantize(acc[y][x][c], n))))
  }

  /** The per-channel floor mean of the images over an `h` x `w` raster. */
  function MeanGrid(imgs: seq<Image>, h: nat, w: nat): (g: Grid)
    requires 0 < |imgs|
    ensures HasShape(g, h, w)
    ensures forall y, x, c :: 0 <= y < h && 0 <= x < w && 0 <= c < Channels ==>
              IsFloorMean(g[y][x][c], Sum(imgs, y, x, c), |imgs|)
  {
    seq(h, y => seq(w, x => seq(Channels, c => Quantize(Sum(imgs, y, x, c), |imgs|))))
  }

  /**
   * What the node computes, stated directly: an error for an empty collection,
   * otherwise an image of the first image's size whose every channel is the
   * floor of the mean of that channel over all images.
   */
  function Mean(imgs: seq<Image>): (r: Result<Image>)
    requires Uniform(imgs)
    ensures r.Err? <==> |imgs| == 0
    ensures r.Err? ==> r.error == NoInputImages
    ensures r.Ok? ==>
              && r.value.width == imgs[0].width
              && r.value.height == imgs[0].height
              && HasShape(r.value.pixels, r.value.height, r.value.width)
    ensures r.Ok? ==>
              forall y, x, c :: 0 <= y < r.value.height && 0 <= x < r.value.width && 0 <= c < Channels ==>
                IsFloorMean(r.value.pixels[y][x][c], Sum(imgs, y, x, c), |imgs|)
  {
    if |imgs| == 0 then Err(NoInputImages)
    else Ok(Image(imgs[0].width, imgs[0].height, MeanGrid(imgs, imgs[0].height, imgs[0].width)))
  }

  /** Normalizing an accumulator that holds the sums over `imgs` yields the mean raster. */
  lemma NormalizeAccumulator(acc: Grid, imgs: seq<Image>, h: nat, w: nat)
    requires 0 < |imgs| && Holds(acc, imgs, h, w)
    ensures Normalize(acc, h, w, |imgs|) == MeanGrid(imgs, h, w)
  {
    var a := Normalize(acc, h, w, |imgs|);
    var b := MeanGrid(imgs, h, w);
    forall y, x, c | 0 <= y < h && 0 <= x < w && 0 <= c < Channels
      ensures a[y][x][c] == b[y][x][c]
    {
      FloorMeanUnique(a[y][x][c], b[y][x][c], Sum(imgs, y, x, c), |imgs|);
    }
    GridExt(a, b, h, w);
  }

  /**
   * Every output channel lies between any lower and upper bound that all inputs
   * respect at that position; in particular between the minimum and the maximum.
   */
  lemma MeanBetween(imgs: seq<Image>, y: int, x: int, c: int, lo: int, hi: int)
    requires 0 < |imgs| && Uniform(imgs)
    requires 0 <= y < imgs[0].height && 0 <= x < imgs[0].width && 0 <= c < Channels
    requires forall i :: 0 <= i < |imgs| ==> lo <= Value(imgs[i], y, x, c) <= hi
    ensures lo <= Mean(imgs).value.pixels[y][x][c] <= hi
  {
    var q := Mean(imgs).value.pixels[y][x][c];
    var n := |imgs|;
    SumBetween(imgs, y, x, c, lo, hi);
    MulCancel(q, hi, n);
    if lo > q {
      MulMonotone(q + 1, lo, n);
    }
  }

  /** Averaging valid RGB images gives a valid RGB image: every channel stays within 0..255. */
  lemma MeanIsRgb(imgs: seq<Image>)
    requires 0 < |imgs| && AllValid(imgs) && Uniform(imgs)
    ensures Mean(imgs).value.Valid()
  {
    var out := Mean(imgs).value;
    forall y, x, c | 0 <= y < out.height && 0 <= x < out.width && 0 <= c < Channels
      ensures out.pixels[y][x][c] <= ChannelMax
    {
      forall i | 0 <= i < |imgs|
        ensures 0 <= Value(imgs[i], y, x, c) <= ChannelMax
      {
        ValueOfValid(imgs[i], y, x, c);
      }
      MeanBetween(imgs, y, x, c, 0, ChannelMax);
    }
  }

  /** If every input is the solid colour `v` (all black, all white, ...), so is the output. */
  lemma MeanOfSolid(imgs: seq<Image>, v: nat)
    requires 0 < |imgs| && AllValid(imgs) && Uniform(imgs)
    requires forall i :: 0 <= i < |imgs| ==> Solid(imgs[i], v)
    ensures Solid(Mean(imgs).value, v)
  {
    var out := Mean(imgs).value;
    forall y, x, c | 0 <= y < out.height && 0 <= x < out.width && 0 <= c < Channels
      ensures Value(out, y, x, c) == v
    {
      MeanBetween(imgs, y, x, c, v, v);
    }
  }

  /** Averaging `n` >= 1 copies of one image returns that image unchanged. */
  lemma MeanOfCopies(img: Image, n: nat)
    requires img.Valid() && 1 <= n
    ensures Mean(seq(n, _ => img)) == Ok(img)
  {
    var imgs := seq(n, _ => img);
    var out := Mean(imgs).value;
    forall y, x, c | 0 <= y < img.height && 0 <= x < img.width && 0 <= c < Channels
      ensures out.pixels[y][x][c] == img.pixels[y][x][c]
    {
      var v := img.pixels[y][x][c];
      ValueOfValid(img, y, x, c);
      MeanBetween(imgs, y, x, c, v, v);
    }
    GridExt(out.pixels, img.pixels, img.height, img.width);
  }

  /** Averaging a single image returns it unchanged. */
  lemma MeanOfOne(img: Image)
    requires img.Valid()
    ensures Mean([img]) == Ok(img)
  {
    assert [img] == seq(1, _ => img);
    MeanOfCopies(img, 1);
  }

  /** Reordering the input collection does not change the output. */
  lemma MeanPermutation(a: seq<Image>, b: seq<Image>)
    requires multiset(a) == multiset(b) && Uniform(a)
    ensures Uniform(b) && Mean(a) == Mean(b)
  {
    forall i | 0 <= i < |b|
      ensures b[i].width == a[0].width && b[i].height == a[0].height
    {
      assert b[i] in multiset(a);
    }
    if |a| == 0 {
      assert |b| == |multiset(b)| == 0;
    } else {
      assert b[0] in multiset(a);
      var h, w := a[0].height, a[0].width;
      var ga, gb := Mean(a).value.pixels, Mean(b).value.pixels;
      forall y, x, c | 0 <= y < h && 0 <= x < w && 0 <= c < Channels
        ensures ga[y][x][c] == gb[y][x][c]
      {
        SumPermutation(a, b, y, x, c);
        FloorMeanUnique(ga[y][x][c], gb[y][x][c], Sum(a, y, x, c), |a|);
      }
      GridExt(ga, gb, h, w);
    }
  }

  /**
   * The node's `invoke`: reject an empty collection, fold every image into an
   * accumulator created lazily with the first image's size, then divide by the
   * image count and convert to 8 bits.
   */
  method Invoke(imgs: seq<Image>) returns (r: Result<Image>)
    requires AllValid(imgs) && Uniform(imgs)
    ensures |imgs| == 0 <==> r == Err(NoInputImages)
    ensures r.Ok? ==> r.value.Valid() && r.value.width == imgs[0].width && r.value.height == imgs[0].height
    ensures r == Mean(imgs)
  {
    if |imgs| == 0 {
      return Err(NoInputImages);
    }
    var acc: Option<Grid> := None;
    var w, h := 0, 0;
    var k := 0;
    while k < |imgs|
      invariant 0 <= k <= |imgs|
      invariant acc.Some? <==> 0 < k
      invariant 0 < k ==> w == imgs[0].width && h == imgs[0].height
      invariant acc.Some? ==> Holds(acc.value, imgs[..k], h, w)
    {
      var img := imgs[k];
      if acc.None? {
        w, h := img.width, img.height;
        acc := Some(Zeros(h, w));
        assert imgs[..k] == [];
      }
      AccumulateStep(acc.value, imgs[..k], img, h, w);
      acc := Some(Add(acc.value, img.pixels, h, w));
      assert imgs[..k] + [img] == imgs[..k + 1];
      k := k + 1;
    }
    assert imgs[..k] == imgs;
    NormalizeAccumulator(acc.value, imgs, h, w);
    MeanIsRgb(imgs);
    r := Ok(Image(w, h, Normalize(acc.value, h, w, |imgs|)));
  }
}
