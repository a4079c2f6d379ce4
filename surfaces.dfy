/** Surface (surface.cpp, surface.hpp): a reference-counted view onto a
    shared image texture. Under OpenGL it is a rectangle of texture
    coordinates with a logical size; under the software renderer it is a
    pixel region of the texture's buffer with a mirror flag, plus a cache of
    pre-transformed buffers, one slot per drawing effect. The texture the
    manager hands out for a file is a constructor parameter, and the blit to
    the screen becomes the returned Blit value. */
module Surfaces {
  import opened Geometry
  import opened Kernels
  import opened Textures

  /** The drawing effects; each indexes one slot of the transform cache. */
  datatype DrawingEffect = NoEffect | VerticalFlip | HorizontalFlip {
    function Index(): (i: nat)
      ensures i < NumEffects
    {
      match this
      case NoEffect => 0
      case VerticalFlip => 1
      case HorizontalFlip => 2
    }
  }

  /** NUM_EFFECTS, the size of the transform cache. */
  const NumEffects: nat := 3

  /** The three effects have distinct slots; with Index below NumEffects
      they fill the cache exactly. */
  lemma EffectIndexInjective()
    ensures forall a: DrawingEffect, b: DrawingEffect :: a.Index() == b.Index() ==> a == b
  {
  }

  /** The geometry union: texture coordinates and logical size under
      OpenGL, or flip flag, offset and size of the blitted region under the
      software renderer. */
  datatype Region =
    | GlRegion(uvLeft: real, uvTop: real, uvRight: real, uvBottom: real, glWidth: real, glHeight: real)
    | SdlRegion(flipx: bool, offsetx: int, offsety: int, width: int, height: int)

  /** What hflip does to the geometry: swap the horizontal texture
      coordinates, or toggle the mirror flag. */
  function Flipped(r: Region): Region {
    match r
    case GlRegion(l, t, rt, b, w, h) => GlRegion(rt, t, l, b, w, h)
    case SdlRegion(f, x, y, w, h) => SdlRegion(!f, x, y, w, h)
  }

  /** Flipping twice restores the region, and a flip keeps the size. */
  lemma FlippedTwice(r: Region)
    ensures Flipped(Flipped(r)) == r
    ensures Flipped(r).GlRegion? == r.GlRegion?
    ensures r.GlRegion? ==> Flipped(r).glWidth == r.glWidth && Flipped(r).glHeight == r.glHeight
    ensures r.SdlRegion? ==> Flipped(r).width == r.width && Flipped(r).height == r.height
  {
  }

  /** The effect the software path actually draws: a mirrored surface is
      always drawn horizontally flipped. */
  function EffectiveEffect(effect: DrawingEffect, flipx: bool): (e: DrawingEffect)
    ensures flipx ==> e == HorizontalFlip
    ensures !flipx ==> e == effect
  {
    if flipx then HorizontalFlip else effect
  }

  /** The integer ratio from the logical screen to the window: the axis
      with the smaller stretch factor decides. */
  function ScaleRatio(screenWidth: nat, screenHeight: nat): (ratio: (int, int))
    requires screenWidth > 0 && screenHeight > 0
    ensures ratio.0 > 0 && ratio.1 > 0
    ensures var xf, yf := screenWidth as real / ScreenWidth as real, screenHeight as real / ScreenHeight as real;
      ratio.0 as real / ratio.1 as real == (if xf < yf then xf else yf)
  {
    var xfactor := screenWidth as real / ScreenWidth as real;
    var yfactor := screenHeight as real / ScreenHeight as real;
    if xfactor < yfactor then (screenWidth, ScreenWidth) else (screenHeight, ScreenHeight)
  }

  /** The source offset along one axis: a flipped axis takes the region
      from the mirrored side of the texture, extent - (offset + width). */
  function SourceOffset(offset: int, extent: int, width: real, flip: bool): (o: int)
    ensures !flip ==> o == offset
  {
    if flip then extent - (offset + Trunc(width)) else offset
  }

  /** The mirrored offset picks exactly the mirror image of the region:
      column c lies in [offset, offset + w) iff extent - 1 - c lies in the
      flipped region. */
  lemma SourceOffsetMirrors(offset: int, extent: int, width: real, c: int)
    ensures var w, o := Trunc(width), SourceOffset(offset, extent, width, true);
      offset <= c < offset + w <==> o <= extent - 1 - c < o + w
  {
  }

  /** In a 1600x1200 window the ratio is 1200 / 600, and the bilinear
      loop as written reads one column past every surface it scales. */
  lemma LargeWindowReadsPastEdge(w: nat, h: nat)
    requires w > 0 && h > 0
    ensures ScaleRatio(1600, 1200) == (1200, 600)
    ensures !BilinearReadsInBounds(w, h, 1200, 600)
  {
    DoublingReadsPastEdge(w, h);
  }

  /** SDL_Rect: the source rectangle of a blit. */
  datatype SdlRect = SdlRect(x: int, y: int, w: int, h: int)

  /** One SDL_BlitSurface call: the buffer, the part of it, and where it
      lands on the screen. */
  datatype Blit = Blit(source: PixelBuffer, srcRect: SdlRect, dstX: int, dstY: int)

  /** A window coordinate: v scaled by num / den and cast to int. */
  function ToWindow(v: real, num: int, den: int): (n: int)
    requires num > 0 && den > 0
    ensures 0.0 <= v ==> n as real <= v * num as real / den as real < n as real + 1.0
    ensures num == den && v.Floor as real == v ==> n == v.Floor
  {
    if num == den then
      assert v * num as real / den as real == v;
      Trunc(v)
    else
      Trunc(v * num as real / den as real)
  }

  class Surface {
    var texture: ImageTexture
    var useOpengl: bool
    var region: Region
    const transforms: array<PixelBuffer?>

    /** Only the union member of the configured backend is meaningful. */
    predicate Consistent()
      reads this
    {
      region.GlRegion? <==> useOpengl
    }

    /** The cache has one slot per effect, no buffer sits in two slots, and
        a flipped variant only exists once the unflipped one does. */
    ghost predicate Valid()
      reads this, transforms
    {
      Consistent() &&
      transforms.Length == NumEffects &&
      (forall i, j :: 0 <= i < j < transforms.Length && transforms[i] != null ==> transforms[i] != transforms[j]) &&
      (transforms[VerticalFlip.Index()] != null || transforms[HorizontalFlip.Index()] != null ==>
        transforms[NoEffect.Index()] != null)
    }

    /** Surface(file): the whole image. Under OpenGL its texture
        coordinates run from the corner to the image's edge inside the
        padded texture; under the software renderer the region is the whole
        image, unflipped, with an empty cache. */
    constructor FromFile(texture: ImageTexture, useOpengl: bool)
      requires texture.texture.Valid() && texture.texture.useOpengl == useOpengl
      requires useOpengl ==> texture.texture.storage.width > 0 && texture.texture.storage.height > 0
      modifies texture
      ensures Valid() && fresh(transforms)
      ensures this.texture == texture && this.useOpengl == useOpengl
      ensures texture.refcount == old(texture.refcount) + 1
      ensures useOpengl ==>
        region == GlRegion(0.0, 0.0, texture.UvRight(), texture.UvBottom(),
                           texture.imageWidth as real, texture.imageHeight as real)
      ensures !useOpengl ==> region == SdlRegion(false, 0, 0, texture.imageWidth, texture.imageHeight)
      ensures Width() == texture.imageWidth as real && Height() == texture.imageHeight as real
      ensures forall i :: 0 <= i < NumEffects ==> transforms[i] == null
    {
      this.texture := texture;
      this.useOpengl := useOpengl;
      if useOpengl {
        region := GlRegion(0.0, 0.0, texture.UvRight(), texture.UvBottom(),
                           texture.imageWidth as real, texture.imageHeight as real);
      } else {
        region := SdlRegion(false, 0, 0, texture.imageWidth, texture.imageHeight);
      }
      transforms := new PixelBuffer?[NumEffects](_ => null);
      new;
      texture.Ref();
    }

    /** Surface(file, x, y, w, h): a sub-rectangle of the image. Under
        OpenGL the texture coordinates are the rectangle's edges over the
        texture size and the logical size is w by h; under the software
        renderer the region is (x, y, w, h), unflipped, with an empty cache. */
    constructor SubRect(texture: ImageTexture, useOpengl: bool, x: int, y: int, w: int, h: int)
      requires texture.texture.Valid() && texture.texture.useOpengl == useOpengl
      requires useOpengl ==> texture.texture.storage.width > 0 && texture.texture.storage.height > 0
      modifies texture
      ensures Valid() && fresh(transforms)
      ensures this.texture == texture && this.useOpengl == useOpengl
      ensures texture.refcount == old(texture.refcount) + 1
      ensures useOpengl ==>
        var tw, th := texture.texture.storage.width as real, texture.texture.storage.height as real;
        region == GlRegion(x as real / tw, y as real / th, (x + w) as real / tw, (y + h) as real / th,
                           w as real, h as real)
      ensures !useOpengl ==> region == SdlRegion(false, x, y, w, h)
      ensures Width() == w as real && Height() == h as real
      ensures forall i :: 0 <= i < NumEffects ==> transforms[i] == null
    {
      this.texture := texture;
      this.useOpengl := useOpengl;
      if useOpengl {
        var tw, th := texture.texture.Width() as real, texture.texture.Height() as real;
        region := GlRegion(x as real / tw, y as real / th, (x + w) as real / tw, (y + h) as real / th,
                           w as real, h as real);
      } else {
        region := SdlRegion(false, x, y, w, h);
      }
      transforms := new PixelBuffer?[NumEffects](_ => null);
      new;
      texture.Ref();
    }

    /** Surface(const Surface&): shares the other's texture (one more
        reference) and copies its geometry; the cache starts empty. */
    constructor Copy(other: Surface, useOpengl: bool)
      requires other.Consistent() && other.useOpengl == useOpengl
      modifies other.texture
      ensures Valid() && fresh(transforms)
      ensures texture == other.texture && region == other.region && this.useOpengl == useOpengl
      ensures texture.refcount == old(other.texture.refcount) + 1
      ensures forall i :: 0 <= i < NumEffects ==> transforms[i] == null
    {
      texture := other.texture;
      this.useOpengl := useOpengl;
      region := other.region;
      transforms := new PixelBuffer?[NumEffects](_ => null);
      new;
      texture.Ref();
    }

    /** operator=: takes a reference to the other's texture before dropping
        its own, so assigning a surface to itself (or to a surface sharing
        its texture) leaves the count where it was. The geometry is copied;
        the software cache is emptied without freeing its buffers. */
    method Assign(other: Surface)
      requires Valid() && other.Consistent() && other.useOpengl == useOpengl
      modifies this, other.texture, texture, transforms
      ensures Valid() && useOpengl == old(useOpengl)
      ensures texture == old(other.texture) && region == old(other.region)
      ensures old(texture) == old(other.texture) ==> texture.refcount == old(texture.refcount)
      ensures old(texture) != old(other.texture) ==>
        texture.refcount == old(other.texture.refcount) + 1 && old(texture).refcount == old(texture.refcount) - 1
      ensures !useOpengl ==> forall i :: 0 <= i < NumEffects ==> transforms[i] == null
      ensures useOpengl ==> forall i :: 0 <= i < NumEffects ==> transforms[i] == old(transforms[i])
    {
      var incoming := other.texture;
      var incomingRegion := other.region;
      incoming.Ref();
      texture.Unref();
      texture := incoming;
      region := incomingRegion;
      if !useOpengl {
        transforms[0], transforms[1], transforms[2] := null, null, null;
      }
    }

    /** ~Surface: drops the texture reference and, under the software
        renderer, frees every cached buffer (SDL_FreeSurface takes one
        reference off a buffer and ignores null). */
    method Destroy()
      requires Valid()
      modifies texture, set i | 0 <= i < transforms.Length && transforms[i] != null :: transforms[i]
      ensures texture.refcount == old(texture.refcount) - 1
      ensures !useOpengl ==> forall i :: 0 <= i < NumEffects && transforms[i] != null ==>
        transforms[i].refcount == old(transforms[i].refcount) - 1
      ensures useOpengl ==> forall i :: 0 <= i < NumEffects && transforms[i] != null ==>
        transforms[i].refcount == old(transforms[i].refcount)
    {
      texture.Unref();
      if !useOpengl {
        var i := 0;
        while i < NumEffects
          invariant 0 <= i <= NumEffects
          invariant texture.refcount == old(texture.refcount) - 1
          invariant forall j :: 0 <= j < i && transforms[j] != null ==>
            transforms[j].refcount == old(transforms[j].refcount) - 1
          invariant forall j :: i <= j < NumEffects && transforms[j] != null ==>
            transforms[j].refcount == old(transforms[j].refcount)
        {
          if transforms[i] != null {
            transforms[i].refcount := transforms[i].refcount - 1;
          }
          i := i + 1;
        }
      }
    }

    /** hflip: mirrors the surface horizontally. */
    method HFlip()
      requires Consistent()
      modifies this
      ensures Consistent() && region == Flipped(old(region))
      ensures texture == old(texture) && useOpengl == old(useOpengl)
      ensures Width() == old(Width()) && Height() == old(Height())
    {
      FlippedTwice(region);
      region := Flipped(region);
    }

    /** get_width: the logical width under OpenGL, the region width
        otherwise. */
    function Width(): (w: real)
      reads this
      requires Consistent()
      ensures useOpengl ==> w == region.glWidth
      ensures !useOpengl ==> w == region.width as real
    {
      if useOpengl then region.glWidth else region.width as real
    }

    /** get_height: as Width, for the other dimension. */
    function Height(): (h: real)
      reads this
      requires Consistent()
      ensures useOpengl ==> h == region.glHeight
      ensures !useOpengl ==> h == region.height as real
    {
      if useOpengl then region.glHeight else region.height as real
    }

    /** get_size: width and height as a vector. */
    function Size(): (s: Vector)
      reads this
      requires Consistent()
      ensures s.x == Width() && s.y == Height()
    {
      Vector(Width(), Height())
    }

    /** The first half of draw_part's cache fill: the unflipped slot gets
        the buffer scaled to the window unless it is already there. */
    method FillScaled(s: PixelBuffer, num: int, den: int)
      requires Valid() && num > 0 && den > 0
      modifies transforms, s
      ensures Valid() && transforms[NoEffect.Index()] != null
      ensures forall i :: 0 <= i < NumEffects && i != NoEffect.Index() ==> transforms[i] == old(transforms[i])
      ensures old(transforms[NoEffect.Index()]) != null ==>
        transforms[NoEffect.Index()] == old(transforms[NoEffect.Index()]) && s.refcount == old(s.refcount)
      ensures old(transforms[NoEffect.Index()]) == null ==>
        (num == den ==> transforms[NoEffect.Index()] == s && s.refcount == old(s.refcount) + 1) &&
        (num != den ==>
          var scaled := transforms[NoEffect.Index()];
          fresh(scaled) && scaled.Width() == ScaledSize(s.Width(), num, den) &&
          scaled.Height() == ScaledSize(s.Height(), num, den) &&
          forall y: nat, x: nat :: y < scaled.Height() && x < scaled.Width() ==> ScaledPixel(s, scaled, num, den, x, y))
    {
      if transforms[NoEffect.Index()] == null {
        var scaled := Scale(s, num, den);
        transforms[NoEffect.Index()] := scaled;
      }
    }

    /** The second half: the slot of a flip effect gets the mirror image
        of the unflipped buffer. */
    method FillFlipped(e: DrawingEffect)
      requires Valid() && transforms[NoEffect.Index()] != null && transforms[e.Index()] == null
      modifies transforms
      ensures Valid() && transforms[e.Index()] != null
      ensures forall i :: 0 <= i < NumEffects && i != e.Index() ==> transforms[i] == old(transforms[i])
      ensures e == HorizontalFlip ==>
        fresh(transforms[e.Index()]) && Grid(transforms[e.Index()]) == MirrorRows(Grid(transforms[NoEffect.Index()]))
      ensures e == VerticalFlip ==>
        fresh(transforms[e.Index()]) && Grid(transforms[e.Index()]) == MirrorColumns(Grid(transforms[NoEffect.Index()]))
    {
      match e
      case NoEffect =>
      case HorizontalFlip =>
        var flipped := HorzFlip(transforms[NoEffect.Index()]);
        transforms[HorizontalFlip.Index()] := flipped;
      case VerticalFlip =>
        var flipped := VertFlip(transforms[NoEffect.Index()]);
        transforms[VerticalFlip.Index()] := flipped;
    }

    /** The cache fill of draw_part for effect e: on a miss the unflipped,
        scaled buffer is built first (if it is missing) and the flipped
        variant from it, so every slot is filled at most once and filled
        slots are reused. */
    method FillTransform(s: PixelBuffer, e: DrawingEffect, num: int, den: int)
      requires Valid() && num > 0 && den > 0
      modifies transforms, s
      ensures Valid() && transforms[e.Index()] != null
      ensures forall i :: 0 <= i < NumEffects && old(transforms[i]) != null ==> transforms[i] == old(transforms[i])
      ensures forall i :: 0 <= i < NumEffects && i != NoEffect.Index() && i != e.Index() ==>
        transforms[i] == old(transforms[i])
      ensures old(transforms[e.Index()]) == null && old(transforms[NoEffect.Index()]) == null ==>
        (num == den ==> transforms[NoEffect.Index()] == s && s.refcount == old(s.refcount) + 1) &&
        (num != den ==>
          var scaled := transforms[NoEffect.Index()];
          fresh(scaled) && scaled.Width() == ScaledSize(s.Width(), num, den) &&
          scaled.Height() == ScaledSize(s.Height(), num, den) &&
          forall y: nat, x: nat :: y < scaled.Height() && x < scaled.Width() ==> ScaledPixel(s, scaled, num, den, x, y))
      ensures old(transforms[HorizontalFlip.Index()]) == null && e == HorizontalFlip ==>
        fresh(transforms[HorizontalFlip.Index()]) &&
        Grid(transforms[HorizontalFlip.Index()]) == MirrorRows(Grid(transforms[NoEffect.Index()]))
      ensures old(transforms[VerticalFlip.Index()]) == null && e == VerticalFlip ==>
        fresh(transforms[VerticalFlip.Index()]) &&
        Grid(transforms[VerticalFlip.Index()]) == MirrorColumns(Grid(transforms[NoEffect.Index()]))
    {
      if transforms[e.Index()] != null {
        return;
      }
      FillScaled(s, num, den);
      if e != NoEffect {
        FillFlipped(e);
      }
    }

    /** The software path of draw_part. A texture without a pixel buffer is
        skipped. Otherwise the effect is forced to a horizontal flip for a
        mirrored surface and the transform cache is filled for it; the
        region offset is mirrored along a flipped axis, and the source
        rectangle and destination are scaled to the window. */
    method DrawPart(srcX: real, srcY: real, dstX: real, dstY: real, width: real, height: real,
                    effect: DrawingEffect, screenWidth: nat, screenHeight: nat)
      returns (blit: Option<Blit>)
      requires Valid() && !useOpengl && texture.texture.Valid() && !texture.texture.useOpengl
      requires screenWidth > 0 && screenHeight > 0
      modifies transforms, texture.texture.storage.surface
      ensures Valid()
      ensures texture.texture.Surface() == null ==> blit == None && unchanged(transforms)
      ensures texture.texture.Surface() != null ==>
        var s, e, r := texture.texture.Surface(), EffectiveEffect(effect, region.flipx), ScaleRatio(screenWidth, screenHeight);
        var ox := SourceOffset(region.offsetx, s.Width(), width, e == HorizontalFlip);
        var oy := SourceOffset(region.offsety, s.Height(), height, e == VerticalFlip);
        transforms[e.Index()] != null &&
        blit == Some(Blit(transforms[e.Index()],
                          SdlRect(ToWindow(ox as real + srcX, r.0, r.1), ToWindow(oy as real + srcY, r.0, r.1),
                                  ToWindow(width, r.0, r.1), ToWindow(height, r.0, r.1)),
                          ToWindow(dstX, r.0, r.1), ToWindow(dstY, r.0, r.1)))
      ensures forall i :: 0 <= i < NumEffects && old(transforms[i]) != null ==> transforms[i] == old(transforms[i])
      ensures forall i :: 0 <= i < NumEffects && i != NoEffect.Index() && i != EffectiveEffect(effect, region.flipx).Index() ==>
        transforms[i] == old(transforms[i])
      ensures texture.texture.Surface() != null && old(transforms[EffectiveEffect(effect, region.flipx).Index()]) == null &&
              old(transforms[NoEffect.Index()]) == null ==>
        var s, r := texture.texture.Surface(), ScaleRatio(screenWidth, screenHeight);
        (r.0 == r.1 ==> transforms[NoEffect.Index()] == s && s.refcount == old(s.refcount) + 1) &&
        (r.0 != r.1 ==>
          var scaled := transforms[NoEffect.Index()];
          fresh(scaled) && scaled.Width() == ScaledSize(s.Width(), r.0, r.1) &&
          scaled.Height() == ScaledSize(s.Height(), r.0, r.1) &&
          forall y: nat, x: nat :: y < scaled.Height() && x < scaled.Width() ==> ScaledPixel(s, scaled, r.0, r.1, x, y))
      ensures texture.texture.Surface() != null && old(transforms[HorizontalFlip.Index()]) == null &&
              EffectiveEffect(effect, region.flipx) == HorizontalFlip ==>
        fresh(transforms[HorizontalFlip.Index()]) &&
        Grid(transforms[HorizontalFlip.Index()]) == MirrorRows(Grid(transforms[NoEffect.Index()]))
      ensures texture.texture.Surface() != null && old(transforms[VerticalFlip.Index()]) == null &&
              EffectiveEffect(effect, region.flipx) == VerticalFlip ==>
        fresh(transforms[VerticalFlip.Index()]) &&
        Grid(transforms[VerticalFlip.Index()]) == MirrorColumns(Grid(transforms[NoEffect.Index()]))
    {
      var s := texture.texture.Surface();
      if s == null {
        return None;
      }
      var e := EffectiveEffect(effect, region.flipx);
      var (num, den) := ScaleRatio(screenWidth, screenHeight);
      FillTransform(s, e, num, den);
      var ox := SourceOffset(region.offsetx, s.Width(), width, e == HorizontalFlip);
      var oy := SourceOffset(region.offsety, s.Height(), height, e == VerticalFlip);
      var srcRect := SdlRect(ToWindow(ox as real + srcX, num, den), ToWindow(oy as real + srcY, num, den),
                             ToWindow(width, num, den), ToWindow(height, num, den));
      blit := Some(Blit(transforms[e.Index()], srcRect, ToWindow(dstX, num, den), ToWindow(dstY, num, den)));
    }
  }
}
