/** Texture (texture.cpp, texture.hpp) and the image texture the manager
    hands out. A texture is either an OpenGL handle with its size or a
    software pixel buffer; the C++ union is a tagged datatype here, so the
    fields of the inactive backend cannot be read at all. The calls into
    OpenGL and SDL (glGenTextures, glTexImage2D, SDL_DisplayFormatAlpha)
    become parameters: the handle the driver hands out, whether the upload
    succeeded, and the display-format copy of the image. */
module Textures {
  import opened Geometry
  import opened Pow2
  import opened Kernels

  /** is_power_of_2: (v & (v - 1)) == 0, which also lets 0 through. */
  function IsPowerOf2(v: nat): bool {
    v == 0 || BitAnd(v, v - 1) == 0
  }

  /** The bit trick accepts exactly zero and the powers of two. */
  lemma IsPowerOf2Exactly(v: nat)
    ensures IsPowerOf2(v) <==> v == 0 || IsPow2(v)
  {
    if v >= 1 {
      BitAndPredecessor(v);
    }
  }

  /** Why a texture could not be built: the three runtime_errors of the
      constructors (the upload failure stands for any exception thrown
      while the new handle is being filled). */
  datatype TextureError = NotPowerOf2 | BadColorDepth | UploadFailed

  /** The storage union: an OpenGL handle with the texture size, or an SDL
      surface (possibly null). */
  datatype Storage =
    | GlStorage(handle: nat, width: nat, height: nat)
    | SdlStorage(surface: PixelBuffer?)

  /** The checks of the image constructor, in the order the code makes them:
      the size test first, then the colour depth. */
  function ImageCheck(w: nat, h: nat, bitsPerPixel: nat): (e: Option<TextureError>)
    ensures e == Some(NotPowerOf2) <==> !((w == 0 || IsPow2(w)) && (h == 0 || IsPow2(h)))
    ensures e == Some(BadColorDepth) <==>
      (w == 0 || IsPow2(w)) && (h == 0 || IsPow2(h)) && bitsPerPixel != 24 && bitsPerPixel != 32
    ensures e.None? || e == Some(NotPowerOf2) || e == Some(BadColorDepth)
  {
    IsPowerOf2Exactly(w);
    IsPowerOf2Exactly(h);
    if !IsPowerOf2(w) || !IsPowerOf2(h) then Some(NotPowerOf2)
    else if bitsPerPixel != 24 && bitsPerPixel != 32 then Some(BadColorDepth)
    else None
  }

  class Texture {
    const useOpengl: bool
    var storage: Storage

    /** Only the union member of the configured backend is ever used. */
    ghost predicate Valid()
      reads this
    {
      storage.GlStorage? <==> useOpengl
    }

    constructor (useOpengl: bool, storage: Storage)
      requires storage.GlStorage? <==> useOpengl
      ensures Valid() && this.useOpengl == useOpengl && this.storage == storage
    {
      this.useOpengl := useOpengl;
      this.storage := storage;
    }

    /** get_handle: only meaningful (asserted) under OpenGL. */
    function Handle(): (h: nat)
      reads this
      requires Valid() && useOpengl
      ensures storage == GlStorage(h, storage.width, storage.height)
    {
      storage.handle
    }

    /** set_handle: replaces the handle and keeps the size. */
    method SetHandle(h: nat)
      requires Valid() && useOpengl
      modifies this
      ensures Valid() && Handle() == h
      ensures storage == old(storage).(handle := h)
    {
      storage := storage.(handle := h);
    }

    /** get_surface: only meaningful (asserted) under the software renderer. */
    function Surface(): (s: PixelBuffer?)
      reads this
      requires Valid() && !useOpengl
      ensures storage == SdlStorage(s)
    {
      storage.surface
    }

    /** set_surface: replaces the pixel buffer. */
    method SetSurface(s: PixelBuffer?)
      requires Valid() && !useOpengl
      modifies this
      ensures Valid() && Surface() == s
    {
      storage := SdlStorage(s);
    }

    /** get_width: the stored width under OpenGL, the buffer's width
        otherwise (which dereferences the buffer, so it must be there). */
    function Width(): (w: nat)
      reads this
      requires Valid() && (!useOpengl ==> storage.surface != null)
      ensures useOpengl ==> w == storage.width
      ensures !useOpengl ==> w == storage.surface.Width()
    {
      if useOpengl then storage.width else storage.surface.Width()
    }

    /** get_height: as Width, for the other dimension. */
    function Height(): (h: nat)
      reads this
      requires Valid() && (!useOpengl ==> storage.surface != null)
      ensures useOpengl ==> h == storage.height
      ensures !useOpengl ==> h == storage.surface.Height()
    {
      if useOpengl then storage.height else storage.surface.Height()
    }
  }

  /** Texture(width, height, format): both sizes must be powers of two (an
      assert in the code). Under OpenGL it records the size and uploads an
      empty image into a new handle; if the upload fails, that handle is
      deleted (returned in deleted) and the error passed on. The software
      variant holds no pixel buffer yet. */
  method NewSizedTexture(w: nat, h: nat, useOpengl: bool, handle: nat, uploadOk: bool)
    returns (r: Result<Texture, TextureError>, deleted: Option<nat>)
    requires IsPowerOf2(w) && IsPowerOf2(h)
    ensures useOpengl && !uploadOk ==> r == Err(UploadFailed) && deleted == Some(handle)
    ensures !(useOpengl && !uploadOk) ==> deleted == None && r.Ok? && fresh(r.value) && r.value.Valid()
    ensures r.Ok? ==>
      r.value.useOpengl == useOpengl &&
      r.value.storage == (if useOpengl then GlStorage(handle, w, h) else SdlStorage(null))
  {
    if useOpengl {
      if !uploadOk {
        return Err(UploadFailed), Some(handle);
      }
      var t := new Texture(true, GlStorage(handle, w, h));
      return Ok(t), None;
    }
    var t := new Texture(false, SdlStorage(null));
    return Ok(t), None;
  }

  /** Texture(image, format): rejects a size that is not a power of two,
      then a depth other than 24 or 32 bits, before touching any backend.
      Under OpenGL it records the image size in a new handle (deleted again
      if the upload fails); the software variant keeps the display-format
      copy of the image. */
  method NewImageTexture(image: PixelBuffer, useOpengl: bool, handle: nat, uploadOk: bool, displayFormatted: PixelBuffer?)
    returns (r: Result<Texture, TextureError>, deleted: Option<nat>)
    ensures var e := ImageCheck(image.Width(), image.Height(), image.bitsPerPixel);
      e.Some? ==> r == Err(e.value) && deleted == None
    ensures ImageCheck(image.Width(), image.Height(), image.bitsPerPixel).None? && useOpengl && !uploadOk ==>
      r == Err(UploadFailed) && deleted == Some(handle)
    ensures ImageCheck(image.Width(), image.Height(), image.bitsPerPixel).None? && !(useOpengl && !uploadOk) ==>
      deleted == None && r.Ok? && fresh(r.value) && r.value.Valid() && r.value.useOpengl == useOpengl &&
      r.value.storage == (if useOpengl then GlStorage(handle, image.Width(), image.Height()) else SdlStorage(displayFormatted))
  {
    var check := ImageCheck(image.Width(), image.Height(), image.bitsPerPixel);
    if check.Some? {
      return Err(check.value), None;
    }
    if useOpengl {
      if !uploadOk {
        return Err(UploadFailed), Some(handle);
      }
      var t := new Texture(true, GlStorage(handle, image.Width(), image.Height()));
      return Ok(t), None;
    }
    var t := new Texture(false, SdlStorage(displayFormatted));
    return Ok(t), None;
  }

  /** An image texture: a texture made from a padded image, the path it
      was loaded from, the size of the image before padding and the number
      of surfaces sharing it. image_texture.hpp is not part of this model;
      its reference count is kept as a plain counter. */
  class ImageTexture {
    const texture: Texture
    var filename: string
    var imageWidth: nat
    var imageHeight: nat
    var refcount: int

    constructor (texture: Texture, filename: string, imageWidth: nat, imageHeight: nat)
      ensures this.texture == texture && this.filename == filename
      ensures this.imageWidth == imageWidth && this.imageHeight == imageHeight
      ensures refcount == 0
    {
      this.texture := texture;
      this.filename := filename;
      this.imageWidth := imageWidth;
      this.imageHeight := imageHeight;
      refcount := 0;
    }

    /** The right edge of the image inside its padded texture, in texture
        coordinates (image width over texture width). */
    function UvRight(): (u: real)
      reads this, texture
      requires texture.Valid() && texture.useOpengl && texture.storage.width > 0
      ensures 0.0 <= u && (imageWidth <= texture.storage.width ==> u <= 1.0)
    {
      imageWidth as real / texture.storage.width as real
    }

    /** The bottom edge of the image inside its padded texture. */
    function UvBottom(): (v: real)
      reads this, texture
      requires texture.Valid() && texture.useOpengl && texture.storage.height > 0
      ensures 0.0 <= v && (imageHeight <= texture.storage.height ==> v <= 1.0)
    {
      imageHeight as real / texture.storage.height as real
    }

    method Ref()
      modifies this
      ensures refcount == old(refcount) + 1
      ensures filename == old(filename) && imageWidth == old(imageWidth) && imageHeight == old(imageHeight)
    {
      refcount := refcount + 1;
    }

    method Unref()
      modifies this
      ensures refcount == old(refcount) - 1
      ensures filename == old(filename) && imageWidth == old(imageWidth) && imageHeight == old(imageHeight)
    {
      refcount := refcount - 1;
    }
  }
}
