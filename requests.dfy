/** The drawing requests the drawing context queues (drawing_request.hpp is
    not part of this model; the shapes below are the fields
    drawing_context.cpp reads and writes) and the stable ordering
    handle_drawing_requests puts them in before dispatch. The order is a
    stable sort on the integer layer: requests on a lower layer come first
    and requests on one layer keep their submission order. */
module Requests {
  import opened Geometry
  import opened Surfaces

  /** Where submissions go: the screen queue or the lightmap queue. */
  datatype Target = Normal | Lightmap

  /** Blend factors of a surface request (the default is source alpha
      over one minus source alpha, GL's 0x0302 and 0x0303). */
  datatype Blend = Blend(sfactor: nat, dfactor: nat)

  const DefaultBlend := Blend(0x0302, 0x0303)

  datatype Alignment = LeftAlign | CenterAlign | RightAlign

  /** The translation, drawing effect and alpha applied to submissions;
      apply maps a world position to the screen by subtracting the
      translation. */
  datatype Transform = Transform(translation: Vector, effect: DrawingEffect, alpha: real) {
    function Apply(v: Vector): (w: Vector)
      ensures w.Plus(translation) == v
    {
      v.Minus(translation)
    }
  }

  const IdentityTransform := Transform(Origin, NoEffect, 1.0)

  /** The request-specific data a request points to. Fonts are named by an
      opaque number, and the colour a get_light request will fill by the
      slot it names. */
  datatype Payload =
    | SurfaceData(surface: Surface, angle: real, color: Color, blend: Blend)
    | SurfacePartData(part: Surface, source: Vector, size: Vector)
    | TextData(font: nat, text: string, alignment: Alignment)
    | GradientData(top: Color, bottom: Color)
    | FillRectData(size: Vector, color: Color)
    | LightmapData
    | GetLightData(slot: nat)

  /** One queued drawing request. Requests that never set the effect and
      alpha carry the defaults NO_EFFECT and 1. */
  datatype Request = Request(pos: Vector, layer: int, effect: DrawingEffect, alpha: real, payload: Payload)

  predicate SortedByLayer(s: seq<Request>) {
    forall i, j :: 0 <= i < j < |s| ==> s[i].layer <= s[j].layer
  }

  /** The requests of one layer, in queue order. */
  function OnLayer(s: seq<Request>, layer: int): seq<Request> {
    if s == [] then []
    else OnLayer(s[..|s| - 1], layer) + (if s[|s| - 1].layer == layer then [s[|s| - 1]] else [])
  }

  /** Inserts x after every element whose layer does not exceed x's, so a
      later request lands behind the earlier ones of its layer. */
  function Insert(x: Request, t: seq<Request>): (r: seq<Request>)
    ensures |r| == |t| + 1
  {
    if t == [] || t[|t| - 1].layer <= x.layer then t + [x]
    else Insert(x, t[..|t| - 1]) + [t[|t| - 1]]
  }

  /** The order std::stable_sort leaves the queue in: insertion sort,
      taking the requests in submission order. */
  function SortByLayer(s: seq<Request>): (r: seq<Request>)
    ensures |r| == |s|
  {
    if s == [] then [] else Insert(s[|s| - 1], SortByLayer(s[..|s| - 1]))
  }

  lemma {:induction false} InsertPermutes(x: Request, t: seq<Request>)
    ensures multiset(Insert(x, t)) == multiset(t) + multiset{x}
    decreases |t|
  {
    if t == [] || t[|t| - 1].layer <= x.layer {
    } else {
      var init, last := t[..|t| - 1], t[|t| - 1];
      InsertPermutes(x, init);
      assert t == init + [last];
    }
  }

  lemma {:induction false} InsertSorted(x: Request, t: seq<Request>)
    requires SortedByLayer(t)
    ensures SortedByLayer(Insert(x, t))
    decreases |t|
  {
    if t == [] || t[|t| - 1].layer <= x.layer {
    } else {
      var init, last := t[..|t| - 1], t[|t| - 1];
      InsertSorted(x, init);
      InsertPermutes(x, init);
      var r := Insert(x, init);
      forall i | 0 <= i < |r| ensures r[i].layer <= last.layer {
        assert r[i] in multiset(r);
        assert r[i] in multiset(init) + multiset{x};
        if r[i] != x {
          assert r[i] in init;
        }
      }
    }
  }

  lemma {:induction false} InsertOnLayer(x: Request, t: seq<Request>, layer: int)
    ensures OnLayer(Insert(x, t), layer) == OnLayer(t, layer) + (if x.layer == layer then [x] else [])
    decreases |t|
  {
    if t == [] || t[|t| - 1].layer <= x.layer {
      assert (t + [x])[..|t|] == t;
    } else {
      var init, last := t[..|t| - 1], t[|t| - 1];
      InsertOnLayer(x, init, layer);
      var r := Insert(x, init);
      assert (r + [last])[..|r|] == r;
    }
  }

  /** The ordering is a permutation of the queue. */
  lemma {:induction false} SortByLayerPermutes(s: seq<Request>)
    ensures multiset(SortByLayer(s)) == multiset(s)
  {
    if s != [] {
      var init := s[..|s| - 1];
      SortByLayerPermutes(init);
      InsertPermutes(s[|s| - 1], SortByLayer(init));
      assert s == init + [s[|s| - 1]];
    }
  }

  /** The ordering is sorted by layer. */
  lemma {:induction false} SortByLayerSorted(s: seq<Request>)
    ensures SortedByLayer(SortByLayer(s))
  {
    if s != [] {
      SortByLayerSorted(s[..|s| - 1]);
      InsertSorted(s[|s| - 1], SortByLayer(s[..|s| - 1]));
    }
  }

  /** The ordering is stable: the requests of any one layer come out in
      the order they were submitted. */
  lemma {:induction false} SortByLayerStable(s: seq<Request>, layer: int)
    ensures OnLayer(SortByLayer(s), layer) == OnLayer(s, layer)
  {
    if s != [] {
      SortByLayerStable(s[..|s| - 1], layer);
      InsertOnLayer(s[|s| - 1], SortByLayer(s[..|s| - 1]), layer);
    }
  }

  /** An already ordered queue is left as it is. */
  lemma {:induction false} SortByLayerKeepsSorted(s: seq<Request>)
    requires SortedByLayer(s)
    ensures SortByLayer(s) == s
  {
    if s != [] {
      var init := s[..|s| - 1];
      SortByLayerKeepsSorted(init);
      assert s == init + [s[|s| - 1]];
    }
  }

  /** Where the array insertion step puts x: after the prefix whose layers
      do not exceed x's and before the rest. */
  lemma {:induction false} InsertAt(x: Request, t: seq<Request>, j: nat)
    requires j <= |t|
    requires j > 0 ==> t[j - 1].layer <= x.layer
    requires forall m :: j <= m < |t| ==> t[m].layer > x.layer
    ensures Insert(x, t) == t[..j] + [x] + t[j..]
    decreases |t|
  {
    if j < |t| {
      var init := t[..|t| - 1];
      InsertAt(x, init, j);
      assert init[..j] == t[..j];
      assert init[j..] + [t[|t| - 1]] == t[j..];
    } else {
      assert t[..j] == t;
    }
  }

  /** One step of the insertion sort: shifts the larger-layered tail of
      the ordered prefix a[..i] one place right and drops a[i] into the gap. */
  method InsertStep(a: array<Request>, i: nat)
    requires i < a.Length
    modifies a
    ensures a[..i + 1] == Insert(old(a[i]), old(a[..i]))
    ensures forall m :: i < m < a.Length ==> a[m] == old(a[m])
  {
    var x := a[i];
    ghost var t := a[..i];
    var j := i;
    while j > 0 && a[j - 1].layer > x.layer
      invariant 0 <= j <= i
      invariant forall m :: 0 <= m < j ==> a[m] == t[m]
      invariant forall m :: j < m <= i ==> a[m] == t[m - 1]
      invariant forall m :: j <= m < i ==> t[m].layer > x.layer
      invariant forall m :: i < m < a.Length ==> a[m] == old(a[m])
    {
      a[j] := a[j - 1];
      j := j - 1;
    }
    a[j] := x;
    InsertAt(x, t, j);
    assert a[..i + 1] == t[..j] + [x] + t[j..];
  }

  /** std::stable_sort on the queue, as an in-place insertion sort. */
  method StableSort(a: array<Request>)
    modifies a
    ensures a[..] == SortByLayer(old(a[..]))
  {
    ghost var s := a[..];
    var i := 0;
    while i < a.Length
      invariant 0 <= i <= a.Length
      invariant a[..i] == SortByLayer(s[..i])
      invariant forall m :: i <= m < a.Length ==> a[m] == s[m]
    {
      assert s[..i + 1][..i] == s[..i];
      InsertStep(a, i);
      i := i + 1;
    }
    assert s[..a.Length] == s;
  }
}
