/** DrawingContext (drawing_context.cpp): a deferred renderer. Submissions
    apply the current transform, capture its alpha and drawing effect and
    are appended to the screen queue or the lightmap queue, whichever the
    current target selects; do_drawing orders the queues by layer and hands
    them to the backend. The backend's draw routines become the returned
    sequence of dispatched requests. The layer values come from
    drawing_context.hpp, which is not part of this model. */
module Drawing {
  import opened Geometry
  import opened Pow2
  import opened Textures
  import opened TextureManagement
  import opened Surfaces
  import opened Requests

  const LayerHud: int := 500
  const LayerGui: int := 600

  /** The C++ DrawingRequest constructor's defaults for requests that set
      neither effect nor alpha. */
  const DefaultEffect := NoEffect
  const DefaultAlpha := 1.0

  /** The culling test of draw_surface: the request lies right of or below
      the screen, or ends left of or above it. */
  predicate Culled(pos: Vector, width: real, height: real) {
    pos.x >= ScreenWidth as real || pos.y >= ScreenHeight as real ||
    pos.x + width < 0.0 || pos.y + height < 0.0
  }

  /** A point inside the surface's rectangle (edges included). */
  predicate Covers(pos: Vector, width: real, height: real, p: Vector) {
    pos.x <= p.x <= pos.x + width && pos.y <= p.y <= pos.y + height
  }

  /** A point on the screen. */
  predicate OnScreen(p: Vector) {
    0.0 <= p.x < ScreenWidth as real && 0.0 <= p.y < ScreenHeight as real
  }

  function RealMax(a: real, b: real): real { if a >= b then a else b }

  /** A surface of non-negative size is culled exactly when no point of it
      lies on the screen. */
  lemma CulledIffOffScreen(pos: Vector, width: real, height: real)
    requires width >= 0.0 && height >= 0.0
    ensures Culled(pos, width, height) <==> !exists p :: Covers(pos, width, height, p) && OnScreen(p)
  {
    if !Culled(pos, width, height) {
      var p := Vector(RealMax(pos.x, 0.0), RealMax(pos.y, 0.0));
      assert Covers(pos, width, height, p) && OnScreen(p);
    }
  }

  /** One axis of a clipped part: where it lands, where it is read from,
      and how much of it is drawn. */
  datatype Span = Span(pos: real, source: real, size: real)

  /** draw_surface_part's clipping along one axis: a part starting left of
      (or above) the screen is cut at the screen edge, and dropped when
      nothing of it remains. */
  function ClipAxis(pos: real, source: real, size: real): (r: Option<Span>)
    ensures pos >= 0.0 ==> r == Some(Span(pos, source, size))
    ensures pos < 0.0 ==> (r.None? <==> pos + size <= 0.0)
    ensures r.Some? ==> r.value.pos >= 0.0
    ensures r.Some? ==> r.value.pos + r.value.size == pos + size
    ensures r.Some? ==> r.value.source - r.value.pos == source - pos
  {
    if pos >= 0.0 then Some(Span(pos, source, size))
    else if size + pos <= 0.0 then None
    else Some(Span(0.0, source - pos, size + pos))
  }

  /** The fill colour of draw_filled_rect: alpha scaled by the transform's
      alpha, red, green and blue kept. */
  function Faded(color: Color, alpha: real): (c: Color)
    ensures c.red == color.red && c.green == color.green && c.blue == color.blue
    ensures c.alpha == color.alpha * alpha
  {
    color.(alpha := color.alpha * alpha)
  }

  class DrawingContext {
    var drawingRequests: seq<Request>
    var lightmapRequests: seq<Request>
    var target: Target
    var transform: Transform
    var transformStack: seq<Transform>
    var targetStack: seq<Target>
    var ambientColor: Color
    const useOpengl: bool
    const lightmap: Texture
    const lightmapWidth: nat
    const lightmapHeight: nat
    const lightmapUvRight: real
    const lightmapUvBottom: real

    /** The queue the current target selects (the source's `requests` member). */
    function Queue(): seq<Request>
      reads this
    {
      if target == Lightmap then lightmapRequests else drawingRequests
    }

    /** The queues grew by added, at the end of the selected queue only. */
    twostate predicate Routed(added: seq<Request>)
      reads this
    {
      target == old(target) &&
      if target == Lightmap then
        lightmapRequests == old(lightmapRequests) + added && drawingRequests == old(drawingRequests)
      else
        drawingRequests == old(drawingRequests) + added && lightmapRequests == old(lightmapRequests)
    }

    /** Transform, stacks and ambient colour are as they were. */
    twostate predicate SettingsKept()
      reads this
    {
      transform == old(transform) && transformStack == old(transformStack) &&
      targetStack == old(targetStack) && ambientColor == old(ambientColor)
    }

    /** DrawingContext(): empty queues aimed at the screen, white ambient
        light, and a lightmap a quarter of the screen in each direction,
        backed by a texture padded to powers of two and registered with the
        texture manager. */
    constructor (screenW: nat, screenH: nat, useOpengl: bool, manager: TextureManager, lightmapHandle: nat)
      requires manager.Valid() && manager.useOpengl == useOpengl
      requires screenW / 4 <= 0x4000_0000 && screenH / 4 <= 0x4000_0000
      modifies manager
      ensures drawingRequests == [] && lightmapRequests == [] && target == Normal
      ensures transform == IdentityTransform && transformStack == [] && targetStack == []
      ensures ambientColor == White && this.useOpengl == useOpengl
      ensures lightmapWidth == screenW / 4 && lightmapHeight == screenH / 4
      ensures fresh(lightmap) && lightmap.Valid() && lightmap.useOpengl == useOpengl
      ensures useOpengl ==>
        lightmap.storage.handle == lightmapHandle &&
        IsNextPow2(lightmapWidth, lightmap.storage.width) && IsNextPow2(lightmapHeight, lightmap.storage.height) &&
        lightmapUvRight == lightmapWidth as real / lightmap.storage.width as real &&
        lightmapUvBottom == lightmapHeight as real / lightmap.storage.height as real
      ensures !useOpengl ==> lightmap.storage == SdlStorage(null)
      ensures manager.Valid() && manager.textures == old(manager.textures) + {lightmap}
      ensures manager.imageTextures == old(manager.imageTextures) && manager.savedTextures == old(manager.savedTextures)
    {
      var w, h := screenW / 4, screenH / 4;
      var tw := NextPowerOfTwo(w);
      var th := NextPowerOfTwo(h);
      IsPowerOf2Exactly(tw);
      IsPowerOf2Exactly(th);
      var r, _ := NewSizedTexture(tw, th, useOpengl, lightmapHandle, true);
      Pow2Positive(tw);
      Pow2Positive(th);
      drawingRequests := [];
      lightmapRequests := [];
      target := Normal;
      transform := IdentityTransform;
      transformStack := [];
      targetStack := [];
      ambientColor := White;
      this.useOpengl := useOpengl;
      lightmap := r.value;
      lightmapWidth := w;
      lightmapHeight := h;
      lightmapUvRight := w as real / tw as real;
      lightmapUvBottom := h as real / th as real;
      new;
      manager.RegisterTexture(lightmap);
    }

    /** ~DrawingContext: unregisters the lightmap texture. */
    method Destroy(manager: TextureManager)
      requires manager.Valid()
      modifies manager
      ensures manager.Valid() && manager.textures == old(manager.textures) - {lightmap}
      ensures manager.imageTextures == old(manager.imageTextures) && manager.savedTextures == old(manager.savedTextures)
    {
      manager.RemoveTexture(lightmap);
    }

    /** requests->push_back: appends to the selected queue. */
    method Push(request: Request)
      modifies this
      ensures Routed([request]) && SettingsKept()
    {
      if target == Lightmap {
        lightmapRequests := lightmapRequests + [request];
      } else {
        drawingRequests := drawingRequests + [request];
      }
    }

    /** draw_surface: culled when the transformed position puts the whole
        surface off the screen; otherwise exactly one request carrying the
        layer and the current alpha and effect. */
    method DrawSurface(surface: Surface, position: Vector, angle: real, color: Color, blend: Blend, layer: int)
      requires surface.Consistent()
      modifies this
      ensures SettingsKept()
      ensures var pos := old(transform).Apply(position);
        Culled(pos, surface.Width(), surface.Height()) ==> Routed([])
      ensures var pos := old(transform).Apply(position);
        !Culled(pos, surface.Width(), surface.Height()) ==>
          Routed([Request(pos, layer, transform.effect, transform.alpha, SurfaceData(surface, angle, color, blend))])
    {
      var pos := transform.Apply(position);
      if pos.x >= ScreenWidth as real || pos.y >= ScreenHeight as real
         || pos.x + surface.Width() < 0.0 || pos.y + surface.Height() < 0.0 {
        return;
      }
      Push(Request(pos, layer, transform.effect, transform.alpha, SurfaceData(surface, angle, color, blend)));
    }

    /** The short draw_surface: no rotation, white, default blending. */
    method DrawSurfaceAt(surface: Surface, position: Vector, layer: int)
      requires surface.Consistent()
      modifies this
      ensures SettingsKept()
      ensures var pos := old(transform).Apply(position);
        Culled(pos, surface.Width(), surface.Height()) ==> Routed([])
      ensures var pos := old(transform).Apply(position);
        !Culled(pos, surface.Width(), surface.Height()) ==>
          Routed([Request(pos, layer, transform.effect, transform.alpha, SurfaceData(surface, 0.0, White, DefaultBlend))])
    {
      DrawSurface(surface, position, 0.0, White, DefaultBlend, layer);
    }

    /** draw_surface_part: a part starting off the left or top edge is
        clipped there (source moved right or down by the same amount the
        size shrinks) and dropped if nothing remains along either axis. */
    method DrawSurfacePart(surface: Surface, source: Vector, size: Vector, dest: Vector, layer: int)
      modifies this
      ensures SettingsKept()
      ensures var pos := old(transform).Apply(dest);
        var cx, cy := ClipAxis(pos.x, source.x, size.x), ClipAxis(pos.y, source.y, size.y);
        (cx.None? || cy.None? ==> Routed([])) &&
        (cx.Some? && cy.Some? ==>
          Routed([Request(Vector(cx.value.pos, cy.value.pos), layer, transform.effect, transform.alpha,
                          SurfacePartData(surface, Vector(cx.value.source, cy.value.source),
                                          Vector(cx.value.size, cy.value.size)))]))
    {
      var pos := transform.Apply(dest);
      var partSource, partSize := source, size;
      if pos.x < 0.0 {
        partSize := partSize.(x := partSize.x + pos.x);
        if partSize.x <= 0.0 {
          return;
        }
        partSource := partSource.(x := partSource.x - pos.x);
        pos := pos.(x := 0.0);
      }
      if pos.y < 0.0 {
        partSize := partSize.(y := partSize.y + pos.y);
        if partSize.y <= 0.0 {
          return;
        }
        partSource := partSource.(y := partSource.y - pos.y);
        pos := pos.(y := 0.0);
      }
      Push(Request(pos, layer, transform.effect, transform.alpha, SurfacePartData(surface, partSource, partSize)));
    }

    /** draw_text: one request at the transformed position. */
    method DrawText(font: nat, text: string, position: Vector, alignment: Alignment, layer: int)
      modifies this
      ensures SettingsKept()
      ensures Routed([Request(old(transform).Apply(position), layer, transform.effect, transform.alpha,
                              TextData(font, text, alignment))])
    {
      Push(Request(transform.Apply(position), layer, transform.effect, transform.alpha, TextData(font, text, alignment)));
    }

    /** draw_center_text: centred text anchored half a screen to the right. */
    method DrawCenterText(font: nat, text: string, position: Vector, layer: int)
      modifies this
      ensures SettingsKept()
      ensures Routed([Request(old(transform).Apply(Vector(position.x + (ScreenWidth / 2) as real, position.y)),
                              layer, transform.effect, transform.alpha, TextData(font, text, CenterAlign))])
    {
      DrawText(font, text, Vector(position.x + (ScreenWidth / 2) as real, position.y), CenterAlign, layer);
    }

    /** draw_gradient: a full-screen request at the origin, untransformed. */
    method DrawGradient(top: Color, bottom: Color, layer: int)
      modifies this
      ensures SettingsKept()
      ensures Routed([Request(Origin, layer, transform.effect, transform.alpha, GradientData(top, bottom))])
    {
      Push(Request(Origin, layer, transform.effect, transform.alpha, GradientData(top, bottom)));
    }

    /** draw_filled_rect (corner and size): the colour's alpha is multiplied
        by the transform's alpha, the other channels are kept. */
    method DrawFilledRect(topLeft: Vector, size: Vector, color: Color, layer: int)
      modifies this
      ensures SettingsKept()
      ensures Routed([Request(old(transform).Apply(topLeft), layer, transform.effect, transform.alpha,
                              FillRectData(size, Faded(color, transform.alpha)))])
    {
      var fill := Faded(color, transform.alpha);
      Push(Request(transform.Apply(topLeft), layer, transform.effect, transform.alpha, FillRectData(size, fill)));
    }

    /** draw_filled_rect (rectangle): as above, from the rectangle's corner
        and extent. */
    method DrawFilledRectangle(rect: Rect, color: Color, layer: int)
      modifies this
      ensures SettingsKept()
      ensures Routed([Request(old(transform).Apply(rect.p1), layer, transform.effect, transform.alpha,
                              FillRectData(Vector(rect.Width(), rect.Height()),
                                           Faded(color, transform.alpha)))])
    {
      var fill := Faded(color, transform.alpha);
      Push(Request(transform.Apply(rect.p1), layer, transform.effect, transform.alpha,
                   FillRectData(Vector(rect.Width(), rect.Height()), fill)));
    }

    /** get_light: under white ambient light the answer is white at once and
        nothing is queued; otherwise one request on the GUI layer goes to the
        lightmap queue, whatever the current target, to be answered when the
        lightmap is drawn. */
    method GetLight(position: Vector, slot: nat) returns (written: Option<Color>)
      modifies this
      ensures SettingsKept() && target == old(target) && drawingRequests == old(drawingRequests)
      ensures IsWhite(ambientColor) ==> written == Some(White) && lightmapRequests == old(lightmapRequests)
      ensures !IsWhite(ambientColor) ==>
        written == None &&
        lightmapRequests == old(lightmapRequests) +
          [Request(old(transform).Apply(position), LayerGui, DefaultEffect, DefaultAlpha, GetLightData(slot))]
    {
      if ambientColor.red == 1.0 && ambientColor.green == 1.0 && ambientColor.blue == 1.0 {
        return Some(White);
      }
      lightmapRequests := lightmapRequests +
        [Request(transform.Apply(position), LayerGui, DefaultEffect, DefaultAlpha, GetLightData(slot))];
      return None;
    }

    /** handle_drawing_requests: orders the queue with a stable sort by
        layer, then dispatches the requests in that order. */
    static method HandleDrawingRequests(requests: seq<Request>) returns (dispatched: seq<Request>)
      ensures dispatched == SortByLayer(requests)
      ensures SortedByLayer(dispatched) && multiset(dispatched) == multiset(requests)
      ensures forall layer :: OnLayer(dispatched, layer) == OnLayer(requests, layer)
    {
      var a := new Request[|requests|](i requires 0 <= i < |requests| => requests[i]);
      assert a[..] == requests;
      StableSort(a);
      dispatched := [];
      var i := 0;
      while i < a.Length
        invariant 0 <= i <= a.Length
        invariant dispatched == a[..i]
      {
        dispatched := dispatched + [a[i]];
        i := i + 1;
      }
      assert a[..a.Length] == a[..];
      SortByLayerSorted(requests);
      SortByLayerPermutes(requests);
      forall layer ensures OnLayer(dispatched, layer) == OnLayer(requests, layer) {
        SortByLayerStable(requests, layer);
      }
    }

    /** do_drawing: empties both stacks. When the ambient colour is not
        white, the OpenGL backend first draws and empties the lightmap queue
        (the software backend leaves it alone), and a lightmap request on the
        layer below the HUD goes through the `requests` member, so with the
        lightmap as target it lands in the lightmap queue for the next
        frame. Then the screen queue is drawn in layer order and emptied. */
    method DoDrawing() returns (dispatched: seq<Request>)
      modifies this
      ensures transformStack == [] && targetStack == []
      ensures transform == old(transform) && target == old(target) && ambientColor == old(ambientColor)
      ensures drawingRequests == []
      ensures var useLightmap := !IsWhite(old(ambientColor));
        var request := Request(Origin, LayerHud - 1, DefaultEffect, DefaultAlpha, LightmapData);
        var added := if useLightmap then [request] else [];
        var lit := if useLightmap && useOpengl then SortByLayer(old(lightmapRequests)) else [];
        var kept := if useLightmap && useOpengl then [] else old(lightmapRequests);
        if target == Lightmap then
          lightmapRequests == kept + added && dispatched == lit + SortByLayer(old(drawingRequests))
        else
          lightmapRequests == kept && dispatched == lit + SortByLayer(old(drawingRequests) + added)
    {
      transformStack := [];
      targetStack := [];
      dispatched := [];
      var useLightmap := ambientColor.red != 1.0 || ambientColor.green != 1.0 || ambientColor.blue != 1.0;
      if useLightmap {
        if useOpengl {
          dispatched := HandleDrawingRequests(lightmapRequests);
          lightmapRequests := [];
        }
        Push(Request(Origin, LayerHud - 1, DefaultEffect, DefaultAlpha, LightmapData));
      }
      assert drawingRequests == old(drawingRequests) + (if useLightmap && target != Lightmap then
        [Request(Origin, LayerHud - 1, DefaultEffect, DefaultAlpha, LightmapData)] else []);
      var drawn := HandleDrawingRequests(drawingRequests);
      dispatched := dispatched + drawn;
      drawingRequests := [];
    }

    /** push_transform: saves the current transform. */
    method PushTransform()
      modifies this
      ensures transformStack == old(transformStack) + [transform]
      ensures transform == old(transform) && target == old(target) && targetStack == old(targetStack)
      ensures drawingRequests == old(drawingRequests) && lightmapRequests == old(lightmapRequests)
      ensures ambientColor == old(ambientColor)
    {
      transformStack := transformStack + [transform];
    }

    /** pop_transform: restores the last saved transform (asserting there
        is one). */
    method PopTransform()
      requires transformStack != []
      modifies this
      ensures transform == old(transformStack[|transformStack| - 1])
      ensures transformStack == old(transformStack[..|transformStack| - 1])
      ensures target == old(target) && targetStack == old(targetStack)
      ensures drawingRequests == old(drawingRequests) && lightmapRequests == old(lightmapRequests)
      ensures ambientColor == old(ambientColor)
    {
      transform := transformStack[|transformStack| - 1];
      transformStack := transformStack[..|transformStack| - 1];
    }

    /** A push followed by a pop restores the transform and the stack,
        whatever was set in between. */
    method PushSetPopTransform(alpha: real, effect: DrawingEffect)
      modifies this
      ensures transform == old(transform) && transformStack == old(transformStack)
      ensures target == old(target) && targetStack == old(targetStack)
      ensures drawingRequests == old(drawingRequests) && lightmapRequests == old(lightmapRequests)
    {
      PushTransform();
      SetAlpha(alpha);
      SetDrawingEffect(effect);
      PopTransform();
      assert old(transformStack) + [old(transform)] == transformStack + [old(transform)];
    }

    /** set_drawing_effect: changes the effect of later submissions only. */
    method SetDrawingEffect(effect: DrawingEffect)
      modifies this
      ensures DrawingEffectNow() == effect
      ensures transform == old(transform).(effect := effect)
      ensures transformStack == old(transformStack) && target == old(target) && targetStack == old(targetStack)
      ensures drawingRequests == old(drawingRequests) && lightmapRequests == old(lightmapRequests)
      ensures ambientColor == old(ambientColor)
    {
      transform := transform.(effect := effect);
    }

    /** get_drawing_effect. */
    function DrawingEffectNow(): DrawingEffect
      reads this
    {
      transform.effect
    }

    /** set_alpha: changes the alpha of later submissions only. */
    method SetAlpha(alpha: real)
      modifies this
      ensures Alpha() == alpha
      ensures transform == old(transform).(alpha := alpha)
      ensures transformStack == old(transformStack) && target == old(target) && targetStack == old(targetStack)
      ensures drawingRequests == old(drawingRequests) && lightmapRequests == old(lightmapRequests)
      ensures ambientColor == old(ambientColor)
    {
      transform := transform.(alpha := alpha);
    }

    /** get_alpha. */
    function Alpha(): real
      reads this
    {
      transform.alpha
    }

    /** push_target: saves the current target. */
    method PushTarget()
      modifies this
      ensures targetStack == old(targetStack) + [target]
      ensures target == old(target) && transform == old(transform) && transformStack == old(transformStack)
      ensures drawingRequests == old(drawingRequests) && lightmapRequests == old(lightmapRequests)
      ensures ambientColor == old(ambientColor)
    {
      targetStack := targetStack + [target];
    }

    /** pop_target: makes the last saved target current again (reading the
        back of an empty stack is undefined, so there must be one). */
    method PopTarget()
      requires targetStack != []
      modifies this
      ensures target == old(targetStack[|targetStack| - 1])
      ensures targetStack == old(targetStack[..|targetStack| - 1])
      ensures transform == old(transform) && transformStack == old(transformStack)
      ensures drawingRequests == old(drawingRequests) && lightmapRequests == old(lightmapRequests)
      ensures ambientColor == old(ambientColor)
    {
      var saved := targetStack[|targetStack| - 1];
      targetStack := targetStack[..|targetStack| - 1];
      SetTarget(saved);
    }

    /** set_target: the lightmap target routes later submissions to the
        lightmap queue, any other to the screen queue; nothing queued moves. */
    method SetTarget(newTarget: Target)
      modifies this
      ensures target == newTarget
      ensures newTarget == Lightmap ==> Queue() == lightmapRequests
      ensures newTarget != Lightmap ==> Queue() == drawingRequests
      ensures transform == old(transform) && transformStack == old(transformStack) && targetStack == old(targetStack)
      ensures drawingRequests == old(drawingRequests) && lightmapRequests == old(lightmapRequests)
      ensures ambientColor == old(ambientColor)
    {
      target := newTarget;
    }

    /** set_ambient_color. */
    method SetAmbientColor(color: Color)
      modifies this
      ensures ambientColor == color
      ensures transform == old(transform) && transformStack == old(transformStack)
      ensures target == old(target) && targetStack == old(targetStack)
      ensures drawingRequests == old(drawingRequests) && lightmapRequests == old(lightmapRequests)
    {
      ambientColor := color;
    }
  }
}
