/**
 * The integer accumulator the node folds every image into: a zero array shaped
 * like the first image, to which each image's channels are added in turn.
 */
module Accumulator {
  import opened Raster

  /** Sum of channel `c` of pixel (`y`, `x`) over the images, folded from the front. */
  function Sum(imgs: seq<Image>, y: int, x: int, c: int): nat
    decreases |imgs|
  {
    if |imgs| == 0 then 0
    else Sum(imgs[..|imgs| - 1], y, x, c) + Value(imgs[|imgs| - 1], y, x, c)
  }

  /** `acc` is shaped (`h`, `w`, 3) and holds, at every channel, the sum over `imgs`. */
  predicate Holds(acc: Grid, imgs: seq<Image>, h: nat, w: nat)
  {
    && HasShape(acc, h, w)
    && forall y, x, c :: 0 <= y < h && 0 <= x < w && 0 <= c < Channels ==>
         acc[y][x][c] == Sum(imgs, y, x, c)
  }

  /** The freshly allocated accumulator: the sum of no images at all. */
  function Zeros(h: nat, w: nat): (acc: Grid)
    ensures Holds(acc, [], h, w)
  {
    seq(h, y => seq(w, x => seq(Channels, c => 0)))
  }

  /** In-place addition of one image's array: the shape is kept and channels add up. */
  function Add(acc: Grid, px: Grid, h: nat, w: nat): (r: Grid)
    requires HasShape(acc, h, w) && HasShape(px, h, w)
    ensures HasShape(r, h, w)
    ensures forall y, x, c :: 0 <= y < h && 0 <= x < w && 0 <= c < Channels ==>
              r[y][x][c] == acc[y][x][c] + px[y][x][c]
  {
    seq(h, (y: int) requires 0 <= y < h =>
      seq(w, (x: int) requires 0 <= x < w =>
        seq(Channels, (c: int) requires 0 <= c < Channels => acc[y][x][c] + px[y][x][c])))
  }

  /** Adding the next image to an accumulator of a prefix gives the accumulator of the longer prefix. */
  lemma AccumulateStep(acc: Grid, imgs: seq<Image>, img: Image, h: nat, w: nat)
    requires Holds(acc, imgs, h, w)
    requires img.Valid() && img.height == h && img.width == w
    ensures Holds(Add(acc, img.pixels, h, w), imgs + [img], h, w)
  {
  }

  /** When every summand lies in [`lo`, `hi`], the sum lies in [`lo`*N, `hi`*N]. */
  lemma {:induction false} SumBetween(imgs: seq<Image>, y: int, x: int, c: int, lo: int, hi: int)
    requires forall i :: 0 <= i < |imgs| ==> lo <= Value(imgs[i], y, x, c) <= hi
    ensures lo * |imgs| <= Sum(imgs, y, x, c) <= hi * |imgs|
    decreases |imgs|
  {
    if |imgs| > 0 {
      var n := |imgs| - 1;
      var front := imgs[..n];
      assert forall i :: 0 <= i < |front| ==> front[i] == imgs[i];
      SumBetween(front, y, x, c, lo, hi);
      assert lo * |imgs| == lo * n + lo;
      assert hi * |imgs| == hi * n + hi;
    }
  }

  /** The sum over a concatenation is the sum of the sums. */
  lemma {:induction false} SumAppend(a: seq<Image>, b: seq<Image>, y: int, x: int, c: int)
    ensures Sum(a + b, y, x, c) == Sum(a, y, x, c) + Sum(b, y, x, c)
    decreases |b|
  {
    if |b| == 0 {
      assert a + b == a;
    } else {
      var n := |b| - 1;
      assert (a + b)[..|a + b| - 1] == a + b[..n];
      SumAppend(a, b[..n], y, x, c);
    }
  }

  /** Taking the image at index `j` out of the collection removes exactly its channel from the sum. */
  lemma SumRemove(s: seq<Image>, j: int, y: int, x: int, c: int)
    requires 0 <= j < |s|
    ensures Sum(s, y, x, c) == Sum(s[..j] + s[j + 1..], y, x, c) + Value(s[j], y, x, c)
  {
    assert s == (s[..j] + [s[j]]) + s[j + 1..];
    SumAppend(s[..j] + [s[j]], s[j + 1..], y, x, c);
    SumAppend(s[..j], [s[j]], y, x, c);
    SumAppend(s[..j], s[j + 1..], y, x, c);
    assert [s[j]][..0] == [];
  }

  /** The sum depends only on which images are summed, not on their order. */
  lemma {:induction false} SumPermutation(a: seq<Image>, b: seq<Image>, y: int, x: int, c: int)
    requires multiset(a) == multiset(b)
    ensures Sum(a, y, x, c) == Sum(b, y, x, c)
    decreases |a|
  {
    if |a| == 0 {
      assert |b| == |multiset(b)| == 0;
    } else {
      var n := |a| - 1;
      var v := a[n];
      assert a == a[..n] + [v];
      assert v in multiset(b);
      var j :| 0 <= j < |b| && b[j] == v;
      var rest := b[..j] + b[j + 1..];
      assert b == b[..j] + [v] + b[j + 1..];
      assert multiset(rest) == multiset(b) - multiset{v};
      assert multiset(a[..n]) == multiset(a) - multiset{v};
      SumPermutation(a[..n], rest, y, x, c);
      SumRemove(b, j, y, x, c);
    }
  }
}
