/**
 * Decoded RGB rasters, laid out as the node sees them after converting an image
 * to "RGB" and turning it into an array: `height` rows of `width` pixels of three
 * 8-bit channels.
 */
module Raster {

  /** Number of channels in an RGB pixel. */
  const Channels: nat := 3

  /** Largest value an 8-bit channel can hold. */
  const ChannelMax: nat := 255

  /** A dense height x width x channel array of non-negative integers. */
  type Grid = seq<seq<seq<nat>>>

  /** `g` has `h` rows of `w` pixels of `Channels` channels each. */
  predicate HasShape(g: Grid, h: nat, w: nat)
  {
    && |g| == h
    && forall y :: 0 <= y < h ==>
         |g[y]| == w && forall x :: 0 <= x < w ==> |g[y][x]| == Channels
  }

  /** An RGB image with its size, as returned by the image service. */
  datatype Image = Image(width: nat, height: nat, pixels: Grid)
  {
    /** The pixel array matches the size and every channel fits in 8 bits. */
    predicate Valid()
    {
      && HasShape(pixels, height, width)
      && forall y, x, c :: 0 <= y < height && 0 <= x < width && 0 <= c < Channels ==>
           pixels[y][x][c] <= ChannelMax
    }
  }

  /** Channel `c` of pixel (`y`, `x`), or 0 when the position lies outside the array. */
  function Value(img: Image, y: int, x: int, c: int): nat
  {
    if 0 <= y < |img.pixels| && 0 <= x < |img.pixels[y]| && 0 <= c < |img.pixels[y][x]|
    then img.pixels[y][x][c]
    else 0
  }

  /** Every image of the collection is a valid RGB raster. */
  predicate AllValid(imgs: seq<Image>)
  {
    forall i :: 0 <= i < |imgs| ==> imgs[i].Valid()
  }

  /** Every image has the width and height of the first one. */
  predicate Uniform(imgs: seq<Image>)
  {
    forall i :: 0 <= i < |imgs| ==>
      imgs[i].width == imgs[0].width && imgs[i].height == imgs[0].height
  }

  /** Every channel of every pixel of `img` equals `v`. */
  predicate Solid(img: Image, v: nat)
  {
    forall y, x, c :: 0 <= y < img.height && 0 <= x < img.width && 0 <= c < Channels ==>
      Value(img, y, x, c) == v
  }

  /** Inside a valid image, `Value` reads the pixel array and never exceeds 255. */
  lemma ValueOfValid(img: Image, y: int, x: int, c: int)
    requires img.Valid()
    ensures Value(img, y, x, c) <= ChannelMax
    ensures 0 <= y < img.height && 0 <= x < img.width && 0 <= c < Channels ==>
              Value(img, y, x, c) == img.pixels[y][x][c]
  {
  }

  /** Two grids of the same shape that agree at every channel are equal. */
  lemma GridExt(a: Grid, b: Grid, h: nat, w: nat)
    requires HasShape(a, h, w) && HasShape(b, h, w)
    requires forall y, x, c :: 0 <= y < h && 0 <= x < w && 0 <= c < Channels ==>
               a[y][x][c] == b[y][x][c]
    ensures a == b
  {
    forall y | 0 <= y < h
      ensures a[y] == b[y]
    {
      forall x | 0 <= x < w
        ensures a[y][x] == b[y][x]
      {
        assert forall c :: 0 <= c < Channels ==> a[y][x][c] == b[y][x][c];
      }
    }
  }
}
