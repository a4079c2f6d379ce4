/** TextureManager (texture_manager.cpp): the path-keyed cache of image
    textures, the set of registered textures, and the save/reload protocol
    that parks every texture while the OpenGL context is recreated.
    Image loading (IMG_Load_RW), SDL_CreateRGBSurface, the blit into the
    padded buffer, path normalisation and the driver's calls are parameters
    (an ImageLoad record and a normalize function); the pixel data read back
    and re-uploaded by save/reload is not modelled, only which textures are
    saved and which handles they end up with. */
module TextureManagement {
  import opened Geometry
  import opened Pow2
  import opened Kernels
  import opened Textures

  /** next_power_of_two: doubles 1 until it reaches val. The C int result
      would overflow for val above 2^30, so val is bounded. */
  method NextPowerOfTwo(val: int) returns (result: int)
    requires val <= 0x4000_0000
    ensures IsNextPow2(val, result)
    ensures val <= 1 ==> result == 1
  {
    result := 1;
    while result < val
      invariant IsPow2(result)
      invariant forall p :: IsPow2(p) && val <= p ==> result <= p
      decreases val - result
    {
      forall p | IsPow2(p) && val <= p ensures 2 * result <= p {
        Pow2Gap(result, p);
      }
      DoubleIsPow2(result);
      result := result * 2;
    }
    Pow2Positive(result);
  }

  /** What the outside world answers while create_image_texture runs: the
      decoded image (null when loading fails), whether the padded 32-bit
      buffer could be allocated, and the driver's answers for the texture
      built from it. */
  datatype ImageLoad = ImageLoad(image: PixelBuffer?, bufferAllocated: bool, handle: nat, uploadOk: bool, displayFormatted: PixelBuffer?)

  /** Image sizes for which next_power_of_two stays inside int. */
  predicate SizesFit(load: ImageLoad) {
    load.image != null ==> load.image.Width() <= 0x4000_0000 && load.image.Height() <= 0x4000_0000
  }

  /** The runtime_errors create_image_texture throws or passes on. */
  datatype LoadError = CouldNotLoad(filename: string) | OutOfMemory | TextureFailed(reason: TextureError)

  /** Whether create_image_texture fails, given what the outside world answers. */
  predicate LoadFails(useOpengl: bool, load: ImageLoad) {
    load.image == null || !load.bufferAllocated || (useOpengl && !load.uploadOk)
  }

  /** One entry of the saved-texture list. */
  datatype SavedTexture = SavedTexture(texture: Texture)

  /** The textures named by a run of saved entries. */
  ghost function SavedSet(s: seq<SavedTexture>): set<Texture> {
    set i | 0 <= i < |s| :: s[i].texture
  }

  /** Appending an entry adds exactly its texture. */
  lemma SavedSetAppend(s: seq<SavedTexture>, x: SavedTexture)
    ensures SavedSet(s + [x]) == SavedSet(s) + {x.texture}
  {
    forall t | t in SavedSet(s + [x]) ensures t in SavedSet(s) + {x.texture} {
      var i :| 0 <= i < |s + [x]| && (s + [x])[i].texture == t;
      if i < |s| {
        assert s[i].texture == t;
      }
    }
    forall t | t in SavedSet(s) ensures t in SavedSet(s + [x]) {
      var i :| 0 <= i < |s| && s[i].texture == t;
      assert (s + [x])[i].texture == t;
    }
    assert (s + [x])[|s|].texture == x.texture;
  }

  /** A texture's storage once save_texture has run on it (saved) or not:
      under OpenGL the handle is reset to 0, the size is kept. */
  function AfterSave(s: Storage, saved: bool): (r: Storage)
    ensures r.GlStorage? == s.GlStorage?
    ensures r.GlStorage? ==> r.width == s.width && r.height == s.height
    ensures r.GlStorage? && saved ==> r.handle == 0
    ensures !saved || s.SdlStorage? ==> r == s
  {
    if saved && s.GlStorage? then s.(handle := 0) else s
  }

  /** Moving one element from the pending set to the done set. */
  lemma MoveElement<T>(keys: set<T>, doneKeys: set<T>, k: T)
    requires k in keys && keys !! doneKeys
    ensures (keys - {k}) + (doneKeys + {k}) == keys + doneKeys
    ensures (keys - {k}) !! (doneKeys + {k})
    ensures |doneKeys + {k}| == |doneKeys| + 1
  {
  }

  lemma AppendAssociates(a: seq<SavedTexture>, b: seq<SavedTexture>, x: SavedTexture)
    ensures (a + b) + [x] == a + (b + [x])
  {
  }

  /** A texture's storage after reload_textures has handed out handles for
      the saved entries: the handle of the last entry naming it, if any. */
  ghost function Reloaded(s: Storage, saved: seq<SavedTexture>, handles: seq<nat>, t: Texture): Storage
    requires |handles| == |saved|
  {
    if t in SavedSet(saved) && s.GlStorage? then s.(handle := LastHandle(saved, handles, t)) else s
  }

  /** One more reloaded entry changes only the texture it names. */
  lemma ReloadStep(s: Storage, saved: seq<SavedTexture>, handles: seq<nat>, i: nat, u: Texture)
    requires i < |saved| && |handles| == |saved|
    ensures u == saved[i].texture && s.GlStorage? ==>
      Reloaded(s, saved[..i + 1], handles[..i + 1], u) == s.(handle := handles[i])
    ensures u != saved[i].texture ==>
      Reloaded(s, saved[..i + 1], handles[..i + 1], u) == Reloaded(s, saved[..i], handles[..i], u)
  {
    assert saved[..i + 1][..i] == saved[..i];
    assert handles[..i + 1][..i] == handles[..i];
    assert saved[..i + 1][i] == saved[i];
    if u != saved[i].texture {
      SavedSetAppend(saved[..i], saved[i]);
      assert saved[..i + 1] == saved[..i] + [saved[i]];
    } else {
      assert u in SavedSet(saved[..i + 1]);
    }
  }

  /** The storage of every texture of a footprint once the textures in
      saved have been through save_texture. */
  ghost function AfterSaveAll(before: map<Texture, Storage>, saved: set<Texture>): (m: map<Texture, Storage>)
    ensures m.Keys == before.Keys
    ensures forall t :: t in before && t !in saved ==> m[t] == before[t]
  {
    map t | t in before :: AfterSave(before[t], t in saved)
  }

  /** Saving a set and then another is saving their union. */
  lemma AfterSaveAllTwice(before: map<Texture, Storage>, first: set<Texture>, second: set<Texture>)
    ensures AfterSaveAll(AfterSaveAll(before, first), second) == AfterSaveAll(before, first + second)
  {
    forall t | t in before
      ensures AfterSaveAll(AfterSaveAll(before, first), second)[t] == AfterSaveAll(before, first + second)[t]
    {
      AfterSaveTwice(before[t], t in first, t in second);
    }
  }

  /** Saving twice is saving once. */
  lemma AfterSaveTwice(s: Storage, first: bool, second: bool)
    ensures AfterSave(AfterSave(s, first), second) == AfterSave(s, first || second)
  {
  }

  /** The handle reload_textures leaves on texture t: the handle generated for
      the last saved entry naming t. */
  function LastHandle(saved: seq<SavedTexture>, handles: seq<nat>, t: Texture): (h: nat)
    requires |handles| == |saved| && t in SavedSet(saved)
    ensures exists i :: (0 <= i < |saved| && saved[i].texture == t && h == handles[i] &&
      forall j :: i < j < |saved| ==> saved[j].texture != t)
  {
    var n := |saved| - 1;
    if saved[n].texture == t then handles[n]
    else
      assert t in SavedSet(saved[..n]) by {
        var i :| 0 <= i < |saved| && saved[i].texture == t;
        assert saved[..n][i].texture == t;
      }
      LastHandle(saved[..n], handles[..n], t)
  }

  class TextureManager {
    const useOpengl: bool
    var imageTextures: map<string, ImageTexture>
    var textures: set<Texture>
    var savedTextures: seq<SavedTexture>

    /** The textures behind the cached image textures. */
    ghost function Cached(): set<Texture>
      reads this
    {
      set k | k in imageTextures :: imageTextures[k].texture
    }

    /** Every texture the manager can reach (registered, cached or saved). */
    ghost var Repr: set<Texture>

    /** Every reachable texture was built for the configured backend. */
    ghost predicate Valid()
      reads this, Repr
    {
      textures <= Repr &&
      (forall k :: k in imageTextures ==> imageTextures[k].texture in Repr) &&
      (forall i :: 0 <= i < |savedTextures| ==> savedTextures[i].texture in Repr) &&
      forall t :: t in Repr ==> t.Valid() && t.useOpengl == useOpengl
    }

    constructor (useOpengl: bool)
      ensures Valid() && this.useOpengl == useOpengl
      ensures imageTextures == map[] && textures == {} && savedTextures == []
    {
      this.useOpengl := useOpengl;
      imageTextures := map[];
      textures := {};
      savedTextures := [];
      Repr := {};
    }

    /** create_image_texture: loads the image, pads it to power-of-two sizes
        in a 32-bit buffer and builds a texture from that buffer, keeping the
        unpadded size and the path in the image texture. */
    method CreateImageTexture(filename: string, load: ImageLoad) returns (r: Result<ImageTexture, LoadError>)
      requires SizesFit(load)
      ensures load.image == null ==> r == Err(CouldNotLoad(filename))
      ensures load.image != null && !load.bufferAllocated ==> r == Err(OutOfMemory)
      ensures load.image != null && load.bufferAllocated && useOpengl && !load.uploadOk ==>
        r == Err(TextureFailed(UploadFailed))
      ensures r.Ok? <==> !LoadFails(useOpengl, load)
      ensures r.Ok? ==> fresh(r.value) && fresh(r.value.texture) && ImageTextureFrom(r.value, filename, load)
    {
      if load.image == null {
        return Err(CouldNotLoad(filename));
      }
      var textureW := NextPowerOfTwo(load.image.Width());
      var textureH := NextPowerOfTwo(load.image.Height());
      if !load.bufferAllocated {
        return Err(OutOfMemory);
      }
      var convert := new PixelBuffer(textureW, textureH, 32);
      IsPowerOf2Exactly(textureW);
      IsPowerOf2Exactly(textureH);
      var made, _ := NewImageTexture(convert, useOpengl, load.handle, load.uploadOk, load.displayFormatted);
      if made.Err? {
        return Err(TextureFailed(made.error));
      }
      var result := new ImageTexture(made.value, filename, load.image.Width(), load.image.Height());
      return Ok(result);
    }

    /** What a successfully created image texture holds: the path, the
        unpadded image size, and a texture for the configured backend whose
        OpenGL size is the image size rounded up to powers of two. */
    ghost predicate ImageTextureFrom(it: ImageTexture, filename: string, load: ImageLoad)
      reads it, it.texture
    {
      load.image != null &&
      it.filename == filename && it.imageWidth == load.image.Width() && it.imageHeight == load.image.Height() &&
      it.refcount == 0 && it.texture.Valid() && it.texture.useOpengl == useOpengl &&
      (useOpengl ==> it.texture.storage.handle == load.handle &&
                     IsNextPow2(load.image.Width(), it.texture.storage.width) &&
                     IsNextPow2(load.image.Height(), it.texture.storage.height)) &&
      (!useOpengl ==> it.texture.storage == SdlStorage(load.displayFormatted))
    }

    /** get: the texture cached under the normalised path, or a new one that
        is then cached under that path. A failed load caches nothing. */
    method Get(path: string, normalize: string -> string, load: ImageLoad) returns (r: Result<ImageTexture, LoadError>)
      requires Valid() && SizesFit(load)
      modifies this
      ensures Valid()
      ensures textures == old(textures) && savedTextures == old(savedTextures)
      ensures normalize(path) in old(imageTextures) ==>
        r == Ok(old(imageTextures)[normalize(path)]) && imageTextures == old(imageTextures)
      ensures normalize(path) !in old(imageTextures) && LoadFails(useOpengl, load) ==>
        r.Err? && imageTextures == old(imageTextures)
      ensures normalize(path) !in old(imageTextures) && load.image == null ==>
        r == Err(CouldNotLoad(normalize(path)))
      ensures normalize(path) !in old(imageTextures) && load.image != null && !load.bufferAllocated ==>
        r == Err(OutOfMemory)
      ensures normalize(path) !in old(imageTextures) && load.image != null && load.bufferAllocated &&
              useOpengl && !load.uploadOk ==>
        r == Err(TextureFailed(UploadFailed))
      ensures normalize(path) !in old(imageTextures) && !LoadFails(useOpengl, load) ==>
        r.Ok? && fresh(r.value) && ImageTextureFrom(r.value, normalize(path), load) &&
        imageTextures == old(imageTextures)[normalize(path) := r.value]
    {
      var filename := normalize(path);
      if filename in imageTextures {
        return Ok(imageTextures[filename]);
      }
      r := CreateImageTexture(filename, load);
      if r.Ok? {
        imageTextures := imageTextures[filename := r.value];
        Repr := Repr + {r.value.texture};
      }
    }

    /** release: forgets the cache entry under the texture's own filename. */
    method Release(texture: ImageTexture)
      requires Valid()
      modifies this
      ensures Valid()
      ensures imageTextures == old(imageTextures) - {texture.filename}
      ensures textures == old(textures) && savedTextures == old(savedTextures)
    {
      imageTextures := imageTextures - {texture.filename};
    }

    /** register_texture: adds one texture to the registered set. */
    method RegisterTexture(texture: Texture)
      requires Valid() && texture.Valid() && texture.useOpengl == useOpengl
      modifies this
      ensures Valid()
      ensures textures == old(textures) + {texture}
      ensures imageTextures == old(imageTextures) && savedTextures == old(savedTextures)
    {
      textures := textures + {texture};
      Repr := Repr + {texture};
    }

    /** remove_texture: takes one texture out of the registered set. */
    method RemoveTexture(texture: Texture)
      requires Valid()
      modifies this
      ensures Valid()
      ensures textures == old(textures) - {texture}
      ensures imageTextures == old(imageTextures) && savedTextures == old(savedTextures)
    {
      textures := textures - {texture};
    }

    /** save_texture: appends one entry and, under OpenGL, deletes the
        texture's handle and sets it to 0. */
    method SaveTexture(texture: Texture)
      requires Valid() && texture in Repr
      modifies this, texture
      ensures Valid()
      ensures savedTextures == old(savedTextures) + [SavedTexture(texture)]
      ensures Repr == old(Repr)
      ensures Storages() == AfterSaveAll(old(Storages()), {texture})
      ensures textures == old(textures) && imageTextures == old(imageTextures)
    {
      savedTextures := savedTextures + [SavedTexture(texture)];
      if useOpengl {
        texture.SetHandle(0);
      }
      assert Storages() == AfterSaveAll(old(Storages()), {texture});
    }

    /** The textures behind the cache entries under the given keys. */
    ghost function CachedUnder(keys: set<string>): set<Texture>
      reads this
    {
      set k | k in keys && k in imageTextures :: imageTextures[k].texture
    }

    lemma CachedUnderAdd(keys: set<string>, k: string)
      requires k in imageTextures
      ensures CachedUnder(keys + {k}) == CachedUnder(keys) + {imageTextures[k].texture}
    {
    }

    /** The storage of every reachable texture. */
    ghost function Storages(): (m: map<Texture, Storage>)
      reads this, Repr
      ensures m.Keys == Repr
    {
      map t | t in Repr :: t.storage
    }

    /** The first loop of save_textures: one entry per registered texture. */
    method SaveRegisteredTextures() returns (ghost added: seq<SavedTexture>)
      requires Valid()
      modifies this, textures
      ensures Valid() && Repr == old(Repr)
      ensures textures == old(textures) && imageTextures == old(imageTextures)
      ensures savedTextures == old(savedTextures) + added
      ensures |added| == |textures| && SavedSet(added) == textures
      ensures Storages() == AfterSaveAll(old(Storages()), textures)
    {
      ghost var storage0 := Storages();
      var pending := textures;
      ghost var done: set<Texture> := {};
      added := [];
      while pending != {}
        invariant pending + done == textures && pending !! done
        invariant savedTextures == old(savedTextures) + added
        invariant |added| == |done| && SavedSet(added) == done
        invariant Valid() && Repr == old(Repr)
        invariant textures == old(textures) && imageTextures == old(imageTextures)
        invariant Storages() == AfterSaveAll(storage0, done)
        decreases pending
      {
        var t :| t in pending;
        SaveTexture(t);
        AppendAssociates(old(savedTextures), added, SavedTexture(t));
        SavedSetAppend(added, SavedTexture(t));
        MoveElement(pending, done, t);
        AfterSaveAllTwice(storage0, done, {t});
        added := added + [SavedTexture(t)];
        pending := pending - {t};
        done := done + {t};
      }
    }

    /** The second loop of save_textures: one entry per cached image texture. */
    method SaveCachedTextures() returns (ghost added: seq<SavedTexture>)
      requires Valid()
      modifies this, Cached()
      ensures Valid() && Repr == old(Repr)
      ensures textures == old(textures) && imageTextures == old(imageTextures)
      ensures savedTextures == old(savedTextures) + added
      ensures |added| == |imageTextures| && SavedSet(added) == Cached()
      ensures Storages() == AfterSaveAll(old(Storages()), Cached())
    {
      ghost var storage0 := Storages();
      var keys := imageTextures.Keys;
      ghost var doneKeys: set<string> := {};
      ghost var doneTextures: set<Texture> := {};
      added := [];
      while keys != {}
        invariant keys + doneKeys == imageTextures.Keys && keys !! doneKeys
        invariant doneTextures == CachedUnder(doneKeys)
        invariant savedTextures == old(savedTextures) + added
        invariant |added| == |doneKeys| && SavedSet(added) == doneTextures
        invariant Valid() && Repr == old(Repr)
        invariant textures == old(textures) && imageTextures == old(imageTextures)
        invariant Storages() == AfterSaveAll(storage0, doneTextures)
        decreases keys
      {
        var k :| k in keys;
        var t := imageTextures[k].texture;
        SaveTexture(t);
        AppendAssociates(old(savedTextures), added, SavedTexture(t));
        SavedSetAppend(added, SavedTexture(t));
        CachedUnderAdd(doneKeys, k);
        MoveElement(keys, doneKeys, k);
        AfterSaveAllTwice(storage0, doneTextures, {t});
        added := added + [SavedTexture(t)];
        keys := keys - {k};
        doneKeys := doneKeys + {k};
        doneTextures := doneTextures + {t};
      }
      assert CachedUnder(doneKeys) == Cached();
    }

    /** save_textures: one saved entry per registered texture, then one per
        cached image texture; under OpenGL every one of them loses its
        handle. */
    method SaveTextures()
      requires Valid()
      modifies this, Repr
      ensures Valid() && Repr == old(Repr)
      ensures textures == old(textures) && imageTextures == old(imageTextures)
      ensures |savedTextures| == |old(savedTextures)| + |textures| + |imageTextures|
      ensures savedTextures[..|old(savedTextures)|] == old(savedTextures)
      ensures SavedSet(savedTextures[|old(savedTextures)|..|old(savedTextures)| + |textures|]) == textures
      ensures SavedSet(savedTextures[|old(savedTextures)| + |textures|..]) == Cached()
      ensures Storages() == AfterSaveAll(old(Storages()), textures + Cached())
    {
      ghost var saved0, storage0 := savedTextures, Storages();
      ghost var registered := SaveRegisteredTextures();
      assert textures <= Repr && Cached() <= Repr;
      ghost var cached := SaveCachedTextures();
      assert savedTextures[..|saved0|] == saved0;
      assert savedTextures[|saved0|..|saved0| + |textures|] == registered;
      assert savedTextures[|saved0| + |textures|..] == cached;
      AfterSaveAllTwice(storage0, textures, Cached());
    }

    /** reload_textures: under OpenGL every saved entry, in order, gets the
        next handle the driver generates (so a texture saved twice keeps the
        later one); the saved list ends empty on either backend. */
    method ReloadTextures(handles: seq<nat>)
      requires Valid() && (useOpengl ==> |handles| == |savedTextures|)
      modifies this, Repr
      ensures Valid() && Repr == old(Repr) && savedTextures == []
      ensures textures == old(textures) && imageTextures == old(imageTextures)
      ensures useOpengl ==> forall t :: t in old(Repr) ==>
        t.storage == Reloaded(old(t.storage), old(savedTextures), handles, t)
      ensures !useOpengl ==> forall t :: t in old(Repr) ==> t.storage == old(t.storage)
    {
      if useOpengl {
        RestoreHandles(handles);
      }
      savedTextures := [];
    }

    /** The OpenGL loop of reload_textures: each saved entry in turn gets
        the next generated handle. */
    method RestoreHandles(handles: seq<nat>)
      requires Valid() && useOpengl && |handles| == |savedTextures|
      modifies Repr
      ensures Valid()
      ensures forall t :: t in Repr ==> t.storage == Reloaded(old(t.storage), savedTextures, handles, t)
    {
      ghost var storage0 := Storages();
      var i := 0;
      while i < |savedTextures|
        invariant 0 <= i <= |savedTextures|
        invariant Valid()
        invariant forall t :: t in Repr ==>
          t in storage0 && t.storage == Reloaded(storage0[t], savedTextures[..i], handles[..i], t)
      {
        var t := savedTextures[i].texture;
        t.SetHandle(handles[i]);
        forall u | u in Repr ensures u.storage == Reloaded(storage0[u], savedTextures[..i + 1], handles[..i + 1], u) {
          ReloadStep(storage0[u], savedTextures, handles, i, u);
        }
        i := i + 1;
      }
      assert savedTextures[..i] == savedTextures && handles[..i] == handles;
    }

    /** The destructor: every entry still cached is reported as not freed
        and deleted; the names reported are exactly the cached paths, each
        once. */
    method Destroy() returns (warned: seq<string>)
      ensures |warned| == |imageTextures|
      ensures forall k :: k in warned <==> k in imageTextures
    {
      warned := [];
      var keys := imageTextures.Keys;
      while keys != {}
        invariant keys <= imageTextures.Keys
        invariant |warned| + |keys| == |imageTextures|
        invariant forall k :: k in warned <==> k in imageTextures && k !in keys
        decreases keys
      {
        var k :| k in keys;
        warned := warned + [k];
        keys := keys - {k};
      }
    }
  }
}
