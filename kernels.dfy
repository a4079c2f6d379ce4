/** The software renderer's pixel-buffer kernels from surface.cpp: bilinear
    scaling, horizontal and vertical mirroring, and the channel blend they use.
    A PixelBuffer stands for an SDL_Surface; pixels are kept as unpacked
    RGBA channels, so the SDL_GetRGBA / SDL_MapRGBA packing and the
    bytes-per-pixel switch are not part of the model. */
module Kernels {
  import opened Geometry

  type Byte = b: int | 0 <= b < 256

  datatype Rgba = Rgba(r: Byte, g: Byte, b: Byte, a: Byte)

  /** An SDL_Surface: a fixed-size grid of pixels (row y, column x), its
      colour depth and SDL's own reference count. */
  class PixelBuffer {
    const pixels: array2<Rgba>
    const bitsPerPixel: nat
    var refcount: int

    function Width(): nat { pixels.Length1 }
    function Height(): nat { pixels.Length0 }

    /** SDL_CreateRGBSurface: a fresh buffer holding one reference. */
    constructor (w: nat, h: nat, bpp: nat)
      ensures Width() == w && Height() == h && bitsPerPixel == bpp
      ensures refcount == 1 && fresh(pixels)
    {
      pixels := new Rgba[h, w];
      bitsPerPixel := bpp;
      refcount := 1;
    }
  }

  /** The pixels of a buffer as rows. */
  ghost function Grid(b: PixelBuffer): (g: seq<seq<Rgba>>)
    reads b.pixels
    ensures |g| == b.Height()
    ensures forall y :: 0 <= y < |g| ==> |g[y]| == b.Width()
  {
    seq(b.Height(), y requires 0 <= y < b.Height() reads b.pixels =>
      seq(b.Width(), x requires 0 <= x < b.Width() reads b.pixels => b.pixels[y, x]))
  }

  /** Each row read right to left. */
  function MirrorRows(g: seq<seq<Rgba>>): (m: seq<seq<Rgba>>)
    ensures |m| == |g|
    ensures forall y :: 0 <= y < |g| ==> |m[y]| == |g[y]|
  {
    seq(|g|, y requires 0 <= y < |g| =>
      seq(|g[y]|, x requires 0 <= x < |g[y]| => g[y][|g[y]| - 1 - x]))
  }

  /** The rows in bottom-to-top order. */
  function MirrorColumns(g: seq<seq<Rgba>>): (m: seq<seq<Rgba>>)
    ensures |m| == |g|
  {
    seq(|g|, y requires 0 <= y < |g| => g[|g| - 1 - y])
  }

  /** Mirroring left-right twice gives back the original pixels. */
  lemma MirrorRowsTwice(g: seq<seq<Rgba>>)
    ensures MirrorRows(MirrorRows(g)) == g
  {
    var m := MirrorRows(MirrorRows(g));
    forall y | 0 <= y < |g| ensures m[y] == g[y] {
      assert |m[y]| == |g[y]|;
      forall x | 0 <= x < |g[y]| ensures m[y][x] == g[y][x] {
        var w := |g[y]|;
        assert MirrorRows(g)[y][w - 1 - x] == g[y][w - 1 - (w - 1 - x)];
      }
    }
  }

  /** Mirroring top-bottom twice gives back the original pixels. */
  lemma MirrorColumnsTwice(g: seq<seq<Rgba>>)
    ensures MirrorColumns(MirrorColumns(g)) == g
  {
    var m := MirrorColumns(MirrorColumns(g));
    forall y | 0 <= y < |g| ensures m[y] == g[y] {
      assert MirrorColumns(g)[|g| - 1 - y] == g[|g| - 1 - (|g| - 1 - y)];
    }
  }

  /** horz_flip: a new buffer of the same size in which source pixel (x, y)
      lands at (w - 1 - x, y). */
  method HorzFlip(src: PixelBuffer) returns (dst: PixelBuffer)
    ensures fresh(dst) && fresh(dst.pixels) && dst.refcount == 1
    ensures dst.Width() == src.Width() && dst.Height() == src.Height()
    ensures dst.bitsPerPixel == src.bitsPerPixel
    ensures forall y, x :: 0 <= y < src.Height() && 0 <= x < src.Width() ==>
      dst.pixels[y, src.Width() - 1 - x] == src.pixels[y, x]
    ensures Grid(dst) == MirrorRows(Grid(src))
  {
    var w, h := src.Width(), src.Height();
    dst := new PixelBuffer(w, h, src.bitsPerPixel);
    var y := 0;
    while y < h
      modifies dst.pixels
      invariant 0 <= y <= h
      invariant forall yy, x :: 0 <= yy < y && 0 <= x < w ==> dst.pixels[yy, w - 1 - x] == src.pixels[yy, x]
    {
      var x := 0;
      while x < w
        modifies dst.pixels
        invariant 0 <= x <= w
        invariant forall yy, xx :: 0 <= yy < y && 0 <= xx < w ==> dst.pixels[yy, w - 1 - xx] == src.pixels[yy, xx]
        invariant forall xx :: 0 <= xx < x ==> dst.pixels[y, w - 1 - xx] == src.pixels[y, xx]
      {
        dst.pixels[y, w - x - 1] := src.pixels[y, x];
        x := x + 1;
      }
      y := y + 1;
    }
    forall yy | 0 <= yy < h ensures Grid(dst)[yy] == MirrorRows(Grid(src))[yy] {
      forall xx | 0 <= xx < w ensures Grid(dst)[yy][xx] == Grid(src)[yy][w - 1 - xx] {
        assert dst.pixels[yy, w - 1 - (w - 1 - xx)] == src.pixels[yy, w - 1 - xx];
      }
    }
  }

  /** vert_flip: a new buffer of the same size in which source pixel (x, y)
      lands at (x, h - 1 - y). */
  method VertFlip(src: PixelBuffer) returns (dst: PixelBuffer)
    ensures fresh(dst) && fresh(dst.pixels) && dst.refcount == 1
    ensures dst.Width() == src.Width() && dst.Height() == src.Height()
    ensures dst.bitsPerPixel == src.bitsPerPixel
    ensures forall y, x :: 0 <= y < src.Height() && 0 <= x < src.Width() ==>
      dst.pixels[src.Height() - 1 - y, x] == src.pixels[y, x]
    ensures Grid(dst) == MirrorColumns(Grid(src))
  {
    var w, h := src.Width(), src.Height();
    dst := new PixelBuffer(w, h, src.bitsPerPixel);
    var y := 0;
    while y < h
      modifies dst.pixels
      invariant 0 <= y <= h
      invariant forall yy, x :: 0 <= yy < y && 0 <= x < w ==> dst.pixels[h - 1 - yy, x] == src.pixels[yy, x]
    {
      var x := 0;
      while x < w
        modifies dst.pixels
        invariant 0 <= x <= w
        invariant forall yy, xx :: 0 <= yy < y && 0 <= xx < w ==> dst.pixels[h - 1 - yy, xx] == src.pixels[yy, xx]
        invariant forall xx :: 0 <= xx < x ==> dst.pixels[h - 1 - y, xx] == src.pixels[y, xx]
      {
        dst.pixels[h - y - 1, x] := src.pixels[y, x];
        x := x + 1;
      }
      y := y + 1;
    }
    forall yy | 0 <= yy < h ensures Grid(dst)[yy] == MirrorColumns(Grid(src))[yy] {
      forall xx | 0 <= xx < w ensures Grid(dst)[yy][xx] == Grid(src)[h - 1 - yy][xx] {
        assert dst.pixels[h - 1 - (h - 1 - yy), xx] == src.pixels[h - 1 - yy, xx];
      }
    }
  }

  lemma MulLeft(a: int, b: int, k: int)
    requires a <= b && k >= 0
    ensures a * k <= b * k
  {
  }

  lemma Distribute(a: int, b: int, c: int)
    ensures a * (b - c) + a * c == a * b
  {
  }

  /** Division by a positive total keeps lower and upper bounds of the form
      lo * total and hi * total. */
  lemma DivBounds(n: int, lo: int, hi: int, total: int)
    requires total > 0 && lo * total <= n <= hi * total
    ensures lo <= n / total <= hi
  {
    var q, r := n / total, n % total;
    assert n == total * q + r && 0 <= r < total;
    assert lo <= q by {
      if q < lo {
        MulLeft(q + 1, lo, total);
        assert false;
      }
    }
    assert q <= hi by {
      if q > hi {
        MulLeft(hi + 1, q, total);
        assert false;
      }
    }
  }

  /** The weighted sum behind merge lies between total times the smaller
      and total times the larger channel. */
  lemma MergeSumBounds(c0: int, c1: int, rem: int, total: int)
    requires 0 <= rem <= total
    ensures var n := c0 * (total - rem) + c1 * rem;
      Min(c0, c1) * total <= n <= Max(c0, c1) * total
  {
    var lo, hi := Min(c0, c1), Max(c0, c1);
    MulLeft(lo, c0, total - rem);
    MulLeft(lo, c1, rem);
    MulLeft(c0, hi, total - rem);
    MulLeft(c1, hi, rem);
    Distribute(lo, total, rem);
    Distribute(hi, total, rem);
  }

  /** merge: the blend (c0 * (total - rem) + c1 * rem) / total of one channel. */
  function Merge(c0: Byte, c1: Byte, rem: int, total: int): (c: Byte)
    requires total > 0 && 0 <= rem <= total
    ensures Min(c0, c1) <= c <= Max(c0, c1)
    ensures rem == 0 ==> c == c0
    ensures rem == total ==> c == c1
  {
    var n := c0 * (total - rem) + c1 * rem;
    MergeSumBounds(c0, c1, rem, total);
    DivBounds(n, Min(c0, c1), Max(c0, c1), total);
    if rem == 0 then
      Distribute(c0, total, 0);
      DivBounds(n, c0, c0, total);
      n / total
    else if rem == total then
      Distribute(c1, total, total);
      DivBounds(n, c1, c1, total);
      n / total
    else
      n / total
  }

  /** merge applied to all four channels. */
  function MergeRgba(p0: Rgba, p1: Rgba, rem: int, total: int): (p: Rgba)
    requires total > 0 && 0 <= rem <= total
    ensures Min(p0.r, p1.r) <= p.r <= Max(p0.r, p1.r) && Min(p0.g, p1.g) <= p.g <= Max(p0.g, p1.g)
    ensures Min(p0.b, p1.b) <= p.b <= Max(p0.b, p1.b) && Min(p0.a, p1.a) <= p.a <= Max(p0.a, p1.a)
    ensures rem == 0 ==> p == p0
    ensures rem == total ==> p == p1
  {
    Rgba(Merge(p0.r, p1.r, rem, total), Merge(p0.g, p1.g, rem, total),
         Merge(p0.b, p1.b, rem, total), Merge(p0.a, p1.a, rem, total))
  }

  /** The size of a scaled dimension: s * numerator / denominator. */
  function ScaledSize(s: nat, num: int, den: int): nat
    requires num > 0 && den > 0
  {
    s * num / den
  }

  /** The source column (or row) that destination column d reads first. */
  function SourceIndex(d: nat, num: int, den: int): nat
    requires num > 0 && den > 0
  {
    d * den / num
  }

  /** Every getpixel call of the bilinear loop, which reads the source at
      (srcx + 1, srcy + 1), stays inside a w-by-h source. The loop reads
      nothing when either scaled dimension is zero. */
  predicate BilinearReadsInBounds(w: nat, h: nat, num: int, den: int)
    requires num > 0 && den > 0
  {
    ScaledSize(w, num, den) == 0 || ScaledSize(h, num, den) == 0 ||
    ((forall x :: 0 <= x < ScaledSize(w, num, den) ==> SourceIndex(x, num, den) + 1 < w) &&
     (forall y :: 0 <= y < ScaledSize(h, num, den) ==> SourceIndex(y, num, den) + 1 < h))
  }

  /** Doubling (numerator 1200 over denominator 600) makes the last
      destination column read column w of a w-column source, one past its
      end, whatever the size of the source. */
  lemma DoublingReadsPastEdge(w: nat, h: nat)
    requires w > 0 && h > 0
    ensures !BilinearReadsInBounds(w, h, 1200, 600)
  {
    assert ScaledSize(w, 1200, 600) == 2 * w;
    assert ScaledSize(h, 1200, 600) == 2 * h;
    assert SourceIndex(2 * w - 1, 1200, 600) + 1 == w;
  }

  /** Halving an image never reads outside it. */
  lemma HalvingReadsInBounds(w: nat, h: nat)
    ensures BilinearReadsInBounds(w, h, 1, 2)
  {
    forall x | 0 <= x < ScaledSize(w, 1, 2) ensures SourceIndex(x, 1, 2) + 1 < w {
      assert SourceIndex(x, 1, 2) == 2 * x;
    }
    forall y | 0 <= y < ScaledSize(h, 1, 2) ensures SourceIndex(y, 1, 2) + 1 < h {
      assert SourceIndex(y, 1, 2) == 2 * y;
    }
  }

  /** The colour the bilinear loop as written blends at destination
      (x, y): the neighbours (srcx, srcy) to (srcx + 1, srcy + 1), merged
      across then down. getpixel does not check its coordinates, so this
      is only defined where all four reads lie inside the source. */
  function BilinearAt(src: PixelBuffer, num: int, den: int, x: nat, y: nat): Rgba
    reads src.pixels
    requires num > 0 && den > 0
    requires SourceIndex(x, num, den) + 1 < src.Width()
    requires SourceIndex(y, num, den) + 1 < src.Height()
  {
    var srcx, srcy := SourceIndex(x, num, den), SourceIndex(y, num, den);
    var remx, remy := x * den % num, y * den % num;
    var color0 := MergeRgba(src.pixels[srcy, srcx], src.pixels[srcy, srcx + 1], remx, num);
    var color1 := MergeRgba(src.pixels[srcy + 1, srcx], src.pixels[srcy + 1, srcx + 1], remx, num);
    MergeRgba(color0, color1, remy, num)
  }

  /** The second neighbour along an axis with n pixels: the next index,
      held at the last one on the edge. */
  function NextIndex(i: nat, n: nat): (j: nat)
    requires i < n
    ensures j < n
    ensures i + 1 < n ==> j == i + 1
    ensures i + 1 == n ==> j == i
  {
    if i + 1 < n then i + 1 else i
  }

  /** The corrected blend: as BilinearAt, with the second neighbour held
      at the last column and row of the source. */
  function ClampedBilinearAt(src: PixelBuffer, num: int, den: int, x: nat, y: nat): Rgba
    reads src.pixels
    requires num > 0 && den > 0
    requires SourceIndex(x, num, den) < src.Width() && SourceIndex(y, num, den) < src.Height()
  {
    var srcx, srcy := SourceIndex(x, num, den), SourceIndex(y, num, den);
    var nextx, nexty := NextIndex(srcx, src.Width()), NextIndex(srcy, src.Height());
    var remx, remy := x * den % num, y * den % num;
    var color0 := MergeRgba(src.pixels[srcy, srcx], src.pixels[srcy, nextx], remx, num);
    var color1 := MergeRgba(src.pixels[nexty, srcx], src.pixels[nexty, nextx], remx, num);
    MergeRgba(color0, color1, remy, num)
  }

  /** Wherever the loop as written reads inside the source, the corrected
      blend is the one it computes. */
  lemma ClampedAgreesInBounds(src: PixelBuffer, num: int, den: int, x: nat, y: nat)
    requires num > 0 && den > 0
    requires SourceIndex(x, num, den) + 1 < src.Width()
    requires SourceIndex(y, num, den) + 1 < src.Height()
    ensures ClampedBilinearAt(src, num, den, x, y) == BilinearAt(src, num, den, x, y)
  {
  }

  /** Every destination index of a scaled dimension starts reading inside
      the source: x < w * num / den implies x * den / num < w. */
  lemma SourceIndexInside(x: nat, w: nat, num: int, den: int)
    requires num > 0 && den > 0 && x < ScaledSize(w, num, den)
    ensures SourceIndex(x, num, den) < w
  {
    var q := w * num / den;
    assert q * den <= w * num;
    MulLeft(x + 1, q, den);
    var s := x * den / num;
    assert s * num <= x * den;
    assert (x + 1) * den == x * den + den;
    assert (w - s) * num == w * num - s * num;
  }

  predicate Between(lo: Byte, v: Byte, hi: Byte) { lo <= v <= hi }

  /** c lies within the range spanned by the four channel values q. */
  predicate ChannelWithin(c: int, q0: int, q1: int, q2: int, q3: int) {
    Min(Min(q0, q1), Min(q2, q3)) <= c <= Max(Max(q0, q1), Max(q2, q3))
  }

  /** Every channel of p lies within the range the four pixels q span. */
  predicate PixelWithin(p: Rgba, q: seq<Rgba>)
    requires |q| == 4
  {
    ChannelWithin(p.r, q[0].r, q[1].r, q[2].r, q[3].r) &&
    ChannelWithin(p.g, q[0].g, q[1].g, q[2].g, q[3].g) &&
    ChannelWithin(p.b, q[0].b, q[1].b, q[2].b, q[3].b) &&
    ChannelWithin(p.a, q[0].a, q[1].a, q[2].a, q[3].a)
  }

  /** The corrected filter never leaves the range spanned by the four
      source pixels it reads, in each of the four channels. */
  lemma BilinearWithinNeighbours(src: PixelBuffer, num: int, den: int, x: nat, y: nat)
    requires num > 0 && den > 0
    requires SourceIndex(x, num, den) < src.Width() && SourceIndex(y, num, den) < src.Height()
    ensures var sx, sy := SourceIndex(x, num, den), SourceIndex(y, num, den);
      var nx, ny := NextIndex(sx, src.Width()), NextIndex(sy, src.Height());
      PixelWithin(ClampedBilinearAt(src, num, den, x, y),
                  [src.pixels[sy, sx], src.pixels[sy, nx], src.pixels[ny, sx], src.pixels[ny, nx]])
  {
  }

  /** Destination pixel (x, y) of dst holds the corrected blend of src. */
  ghost predicate ScaledPixel(src: PixelBuffer, dst: PixelBuffer, num: int, den: int, x: nat, y: nat)
    reads src.pixels, dst.pixels
    requires num > 0 && den > 0
  {
    SourceIndex(x, num, den) < src.Width() && SourceIndex(y, num, den) < src.Height() &&
    0 <= y < dst.Height() && 0 <= x < dst.Width() &&
    dst.pixels[y, x] == ClampedBilinearAt(src, num, den, x, y)
  }

  /** The body of scale's inner loop: the four getpixel reads around the
      source position (held inside the source) and the three merges. */
  method BlendPixel(src: PixelBuffer, num: int, den: int, x: nat, y: nat) returns (color: Rgba)
    requires num > 0 && den > 0
    requires SourceIndex(x, num, den) < src.Width() && SourceIndex(y, num, den) < src.Height()
    ensures color == ClampedBilinearAt(src, num, den, x, y)
  {
    var srcx, srcy := SourceIndex(x, num, den), SourceIndex(y, num, den);
    var nextx, nexty := NextIndex(srcx, src.Width()), NextIndex(srcy, src.Height());
    var color00, color01 := src.pixels[srcy, srcx], src.pixels[srcy, nextx];
    var color10, color11 := src.pixels[nexty, srcx], src.pixels[nexty, nextx];
    var remx := x * den % num;
    var color0 := MergeRgba(color00, color01, remx, num);
    var color1 := MergeRgba(color10, color11, remx, num);
    var remy := y * den % num;
    color := MergeRgba(color0, color1, remy, num);
  }

  /** One pass of the inner loop of scale: row y of dst gets its blends;
      the rows already written stay as they are. */
  method ScaleRow(src: PixelBuffer, dst: PixelBuffer, num: int, den: int, y: nat)
    requires num > 0 && den > 0 && src.pixels != dst.pixels
    requires y < dst.Height() && (dst.Width() > 0 ==> SourceIndex(y, num, den) < src.Height())
    requires forall x: nat :: x < dst.Width() ==> SourceIndex(x, num, den) < src.Width()
    modifies dst.pixels
    ensures forall yy: nat, xx: nat :: yy < y && xx < dst.Width() && old(ScaledPixel(src, dst, num, den, xx, yy)) ==>
      ScaledPixel(src, dst, num, den, xx, yy)
    ensures forall x: nat :: x < dst.Width() ==> ScaledPixel(src, dst, num, den, x, y)
  {
    var x := 0;
    while x < dst.Width()
      invariant 0 <= x <= dst.Width()
      invariant forall yy: nat, xx: nat :: yy < dst.Height() && yy != y && xx < dst.Width() ==>
        dst.pixels[yy, xx] == old(dst.pixels[yy, xx])
      invariant forall xx: nat :: xx < x ==> ScaledPixel(src, dst, num, den, xx, y)
    {
      var color := BlendPixel(src, num, den, x, y);
      dst.pixels[y, x] := color;
      x := x + 1;
    }
  }

  /** scale (the BILINEAR variant), with the edge reads held inside the
      source: the source itself with one more reference when numerator ==
      denominator, otherwise a fresh buffer of size w * num / den by
      h * num / den filled pixel by pixel. */
  method Scale(src: PixelBuffer, num: int, den: int) returns (dst: PixelBuffer)
    requires num > 0 && den > 0
    modifies src
    ensures num == den ==> dst == src && src.refcount == old(src.refcount) + 1
    ensures num != den ==> fresh(dst) && fresh(dst.pixels) && dst.refcount == 1 && src.refcount == old(src.refcount)
    ensures num != den ==> dst.Width() == ScaledSize(src.Width(), num, den) && dst.Height() == ScaledSize(src.Height(), num, den)
    ensures dst.bitsPerPixel == src.bitsPerPixel
    ensures num != den ==> forall y: nat, x: nat :: y < dst.Height() && x < dst.Width() ==>
      ScaledPixel(src, dst, num, den, x, y)
  {
    if num == den {
      src.refcount := src.refcount + 1;
      return src;
    }
    var dw, dh := ScaledSize(src.Width(), num, den), ScaledSize(src.Height(), num, den);
    dst := new PixelBuffer(dw, dh, src.bitsPerPixel);
    forall x: nat | x < dw ensures SourceIndex(x, num, den) < src.Width() {
      SourceIndexInside(x, src.Width(), num, den);
    }
    var y := 0;
    while y < dh
      modifies dst.pixels
      invariant 0 <= y <= dh
      invariant forall yy: nat, xx: nat :: yy < y && xx < dw ==> ScaledPixel(src, dst, num, den, xx, yy)
    {
      SourceIndexInside(y, src.Height(), num, den);
      ScaleRow(src, dst, num, den, y);
      y := y + 1;
    }
  }
}
