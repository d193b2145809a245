/**
 * The 3D globe component: a WorldWind window whose layer list, camera and
 * canvas the component's effects and imperative handle update in place.
 */
module Globe {
  import opened Wrappers
  import opened Clock
  import opened Catalog
  import opened LayerResolver

  /** The display name that marks the one dynamic overlay. */
  const ActiveName: string := "Active Pollutant"
  /** Degrees of longitude added per animation frame while rotating. */
  const RotationStep: real := 0.1
  /** Camera range used by `goToLocation` when the caller gives none. */
  const DefaultRange: real := 5000000.0

  datatype Size = Size(width: int, height: int)
  /** A PNG rendering of the canvas as it was when taken. */
  datatype Snapshot = Snapshot(size: Size)
  datatype Camera = Camera(latitude: real, longitude: real, range: real)
  const StartCamera: Camera := Camera(20.0, 0.0, 15000000.0)
  /** An HTML canvas with no width or height attribute is 300 by 150. */
  const DefaultCanvas: Size := Size(300, 150)

  datatype LayerKind = BlueMarble | Atmosphere | Overlay(request: WmsRequest, opacity: real)
  /** A layer object; `uid` stands for its identity. */
  datatype MapLayer = MapLayer(uid: nat, displayName: string, enabled: bool, kind: LayerKind)

  predicate IsActive(l: MapLayer) {
    l.displayName == ActiveName
  }

  /** `layers.filter(l => l.displayName === "Active Pollutant")` */
  function Tagged(s: seq<MapLayer>): seq<MapLayer> {
    if s == [] then [] else (if IsActive(s[0]) then [s[0]] else []) + Tagged(s[1..])
  }

  /** The filter keeps exactly the layers of `s` that are the dynamic overlay. */
  lemma {:induction false} TaggedMembers(s: seq<MapLayer>)
    ensures forall l :: l in Tagged(s) <==> l in s && IsActive(l)
  {
    if s != [] {
      TaggedMembers(s[1..]);
      assert s == [s[0]] + s[1..];
    }
  }

  /** The layers that are not the dynamic overlay, in order. */
  function Untagged(s: seq<MapLayer>): (r: seq<MapLayer>)
    ensures forall l :: l in r <==> l in s && !IsActive(l)
  {
    if s == [] then [] else (if IsActive(s[0]) then [] else [s[0]]) + Untagged(s[1..])
  }

  function Uids(s: seq<MapLayer>): set<nat> {
    set l | l in s :: l.uid
  }

  predicate DistinctUids(s: seq<MapLayer>) {
    s == [] || (s[0].uid !in Uids(s[1..]) && DistinctUids(s[1..]))
  }

  /** The layers whose identity is not in `gone`, in order. */
  function Without(s: seq<MapLayer>, gone: set<nat>): seq<MapLayer> {
    if s == [] then [] else (if s[0].uid in gone then [] else [s[0]]) + Without(s[1..], gone)
  }

  /** WorldWind's `removeLayer`: splice out the first occurrence, if any. */
  function RemoveLayer(s: seq<MapLayer>, x: MapLayer): (r: seq<MapLayer>)
    ensures x !in s ==> r == s
    ensures x in s ==> |r| == |s| - 1
  {
    if s == [] then [] else if s[0] == x then s[1..] else [s[0]] + RemoveLayer(s[1..], x)
  }

  lemma {:induction false} WithoutIgnores(s: seq<MapLayer>, gone: set<nat>, u: nat)
    requires u !in Uids(s)
    ensures Without(s, gone + {u}) == Without(s, gone)
  {
    if s != [] {
      assert Uids(s[1..]) <= Uids(s);
      WithoutIgnores(s[1..], gone, u);
    }
  }

  lemma {:induction false} WithoutAll(s: seq<MapLayer>)
    ensures Without(s, {}) == s
  {
    if s != [] {
      WithoutAll(s[1..]);
    }
  }

  /** Removing one more listed layer from a filtered list is filtering by one more identity. */
  lemma {:induction false} RemoveStep(s: seq<MapLayer>, gone: set<nat>, x: MapLayer)
    requires DistinctUids(s) && x in s && x.uid !in gone
    ensures RemoveLayer(Without(s, gone), x) == Without(s, gone + {x.uid})
  {
    var w := Without(s[1..], gone);
    if s[0] == x {
      assert Without(s, gone) == [x] + w;
      assert ([x] + w)[1..] == w;
      WithoutIgnores(s[1..], gone, x.uid);
    } else {
      assert x in s[1..];
      assert s[0].uid != x.uid by {
        assert x.uid in Uids(s[1..]);
      }
      RemoveStep(s[1..], gone, x);
      if s[0].uid !in gone {
        assert Without(s, gone) == [s[0]] + w;
        assert ([s[0]] + w)[1..] == w;
        assert Without(s, gone + {x.uid}) == [s[0]] + Without(s[1..], gone + {x.uid});
      } else {
        assert Without(s, gone) == w;
      }
    }
  }

  lemma {:induction false} WithoutTagged(s: seq<MapLayer>)
    requires DistinctUids(s)
    ensures Without(s, Uids(Tagged(s))) == Untagged(s)
  {
    if s != [] {
      WithoutTagged(s[1..]);
      var rest := Uids(Tagged(s[1..]));
      if IsActive(s[0]) {
        assert Uids(Tagged(s)) == rest + {s[0].uid} by {
          assert Tagged(s) == [s[0]] + Tagged(s[1..]);
        }
        WithoutIgnores(s[1..], rest, s[0].uid);
      } else {
        assert Tagged(s) == Tagged(s[1..]);
        assert s[0].uid !in rest by {
          TaggedMembers(s[1..]);
          assert rest <= Uids(s[1..]);
        }
      }
    }
  }

  lemma {:induction false} DistinctUntagged(s: seq<MapLayer>)
    requires DistinctUids(s)
    ensures DistinctUids(Untagged(s))
  {
    if s != [] {
      DistinctUntagged(s[1..]);
      assert Uids(Untagged(s[1..])) <= Uids(s[1..]);
      if !IsActive(s[0]) {
        assert Untagged(s) == [s[0]] + Untagged(s[1..]);
        assert Untagged(s)[1..] == Untagged(s[1..]);
      } else {
        assert Untagged(s) == Untagged(s[1..]);
      }
    }
  }

  lemma {:induction false} DistinctAppend(s: seq<MapLayer>, x: MapLayer)
    requires DistinctUids(s) && x.uid !in Uids(s)
    ensures DistinctUids(s + [x])
  {
    if s != [] {
      assert (s + [x])[1..] == s[1..] + [x];
      assert Uids(s[1..]) <= Uids(s);
      DistinctAppend(s[1..], x);
      assert Uids(s[1..] + [x]) == Uids(s[1..]) + {x.uid};
    } else {
      assert Uids([x][1..]) == {};
    }
  }

  lemma {:induction false} DistinctPrefix(d: seq<MapLayer>, i: nat)
    requires DistinctUids(d) && i < |d|
    ensures d[i].uid !in Uids(d[..i])
  {
    if i > 0 {
      DistinctPrefix(d[1..], i - 1);
      assert d[..i] == [d[0]] + d[1..][..i - 1];
      assert d[i] in d[1..];
    }
  }

  lemma {:induction false} DistinctTagged(s: seq<MapLayer>)
    requires DistinctUids(s)
    ensures DistinctUids(Tagged(s))
  {
    if s != [] {
      DistinctTagged(s[1..]);
      TaggedMembers(s[1..]);
      assert Uids(Tagged(s[1..])) <= Uids(s[1..]);
      if IsActive(s[0]) {
        assert Tagged(s) == [s[0]] + Tagged(s[1..]);
        assert Tagged(s)[1..] == Tagged(s[1..]);
      } else {
        assert Tagged(s) == Tagged(s[1..]);
      }
    }
  }

  lemma {:induction false} TaggedAppend(s: seq<MapLayer>, x: MapLayer)
    ensures Tagged(s + [x]) == Tagged(s) + (if IsActive(x) then [x] else [])
  {
    if s == [] {
      assert [x][1..] == [];
    } else {
      var head := if IsActive(s[0]) then [s[0]] else [];
      var last := if IsActive(x) then [x] else [];
      assert (s + [x])[0] == s[0] && (s + [x])[1..] == s[1..] + [x];
      assert Tagged(s + [x]) == head + Tagged(s[1..] + [x]);
      TaggedAppend(s[1..], x);
      assert head + (Tagged(s[1..]) + last) == (head + Tagged(s[1..])) + last;
    }
  }

  /** `removeLayer` applied to each of `doomed` in turn: what is left is `s` without their identities. */
  method RemoveEach(s: seq<MapLayer>, doomed: seq<MapLayer>) returns (remaining: seq<MapLayer>)
    requires DistinctUids(s) && DistinctUids(doomed)
    requires forall l :: l in doomed ==> l in s
    ensures remaining == Without(s, Uids(doomed))
  {
    remaining := s;
    WithoutAll(s);
    var i := 0;
    assert Uids(doomed[..0]) == {};
    while i < |doomed|
      invariant 0 <= i <= |doomed|
      invariant remaining == Without(s, Uids(doomed[..i]))
    {
      DistinctPrefix(doomed, i);
      RemoveStep(s, Uids(doomed[..i]), doomed[i]);
      assert Uids(doomed[..i + 1]) == Uids(doomed[..i]) + {doomed[i].uid} by {
        assert doomed[..i + 1] == doomed[..i] + [doomed[i]];
      }
      remaining := RemoveLayer(remaining, doomed[i]);
      i := i + 1;
    }
    assert doomed[..i] == doomed;
  }

  class WorldWindMap {
    /** The canvas element and its drawing-buffer size, once mounted. */
    var canvas: Option<Size>
    /** Whether the WorldWind window exists. */
    var engine: bool
    var initialized: bool
    var layers: seq<MapLayer>
    /** The overlay waiting for its 100 ms timer to add it. */
    var pending: Option<MapLayer>
    /** The identity the next created layer gets. */
    var nextUid: nat
    var camera: Camera
    var redraws: nat
    /** Whether an animation frame of the rotation loop is scheduled. */
    var rotating: bool

    ghost predicate Valid()
      reads this
    {
      DistinctUids(layers)
      && (forall l :: l in layers ==> l.uid < nextUid)
      && (pending.Some? ==>
            IsActive(pending.value) && pending.value.uid < nextUid && pending.value.uid !in Uids(layers))
      && |Tagged(layers)| + (if pending.Some? then 1 else 0) <= 1
      && (initialized ==> engine)
      && (engine ==> canvas.Some?)
      && (!engine ==> layers == [] && pending.None? && !rotating)
    }

    constructor (canvasMounted: bool)
      ensures Valid()
      ensures canvas == (if canvasMounted then Some(DefaultCanvas) else None)
      ensures !engine && !initialized && layers == [] && pending.None? && !rotating
      ensures camera == StartCamera && redraws == 0 && nextUid == 0
    {
      canvas := if canvasMounted then Some(DefaultCanvas) else None;
      engine := false;
      initialized := false;
      layers := [];
      pending := None;
      nextUid := 0;
      camera := StartCamera;
      redraws := 0;
      rotating := false;
    }

    /**
     * The mount effect: without a canvas nothing happens; if the window cannot be
     * created the error is swallowed; otherwise the base imagery and atmosphere
     * are added, the camera looks at 20N 0E from 15000 km and the map is ready.
     */
    method Initialize(engineCreated: bool)
      requires Valid() && !engine
      modifies this
      ensures Valid()
      ensures engine == initialized == (old(canvas).Some? && engineCreated)
      ensures engine ==> layers == [MapLayer(old(nextUid), "Blue Marble", true, BlueMarble),
                                    MapLayer(old(nextUid) + 1, "Atmosphere", true, Atmosphere)]
                         && nextUid == old(nextUid) + 2 && camera == StartCamera
      ensures !engine ==> layers == [] && nextUid == old(nextUid) && camera == old(camera)
      ensures canvas == old(canvas) && pending == old(pending) && redraws == old(redraws) && !rotating
    {
      if canvas.None? || !engineCreated {
        return;
      }
      engine := true;
      var blueMarble := MapLayer(nextUid, "Blue Marble", true, BlueMarble);
      var atmosphere := MapLayer(nextUid + 1, "Atmosphere", true, Atmosphere);
      layers := [blueMarble, atmosphere];
      nextUid := nextUid + 2;
      camera := StartCamera;
      initialized := true;
    }

    /**
     * The layer effect. The previous run's pending timer is cancelled; when the
     * window is ready every overlay is removed and, if a layer is active, a fresh
     * overlay for it is made to wait for its timer.
     */
    method UpdateLayer(active: Option<LayerRecord>, time: string, opacity: real, now: Instant)
      requires Valid()
      modifies this
      ensures Valid()
      ensures engine && initialized ==>
        layers == Untagged(old(layers))
        && pending == (match Resolve(active, time, now)
                       case None => None
                       case Some(request) => Some(MapLayer(old(nextUid), ActiveName, true, Overlay(request, opacity))))
      ensures !(engine && initialized) ==> layers == old(layers) && pending == None
      ensures nextUid == old(nextUid) + (if pending.Some? then 1 else 0)
      ensures canvas == old(canvas) && engine == old(engine) && initialized == old(initialized)
      ensures camera == old(camera) && redraws == old(redraws) && rotating == old(rotating)
    {
      pending := None;
      if !engine || !initialized {
        return;
      }
      RemoveOverlays();
      match Resolve(active, time, now)
      case Some(request) =>
        Schedule(Overlay(request, opacity));
      case None =>
    }

    /** A fresh overlay layer of `source`, with the next identity, is made to wait for its timer. */
    method Schedule(source: LayerKind)
      requires Valid() && engine && pending.None? && |Tagged(layers)| == 0
      modifies this
      ensures Valid()
      ensures pending == Some(MapLayer(old(nextUid), ActiveName, true, source)) && nextUid == old(nextUid) + 1
      ensures layers == old(layers) && canvas == old(canvas) && engine == old(engine) && initialized == old(initialized)
      ensures camera == old(camera) && redraws == old(redraws) && rotating == old(rotating)
    {
      assert nextUid !in Uids(layers);
      pending := Some(MapLayer(nextUid, ActiveName, true, source));
      nextUid := nextUid + 1;
    }

    /** `layersToRemove.forEach(l => wwd.removeLayer(l))`: every overlay is taken off, one at a time. */
    method RemoveOverlays()
      requires DistinctUids(layers)
      modifies this
      ensures layers == Untagged(old(layers)) && DistinctUids(layers) && |Tagged(layers)| == 0
      ensures forall l :: l in layers ==> l in old(layers)
      ensures pending == old(pending) && nextUid == old(nextUid) && canvas == old(canvas) && engine == old(engine)
      ensures initialized == old(initialized) && camera == old(camera) && redraws == old(redraws) && rotating == old(rotating)
    {
      var doomed := Tagged(layers);
      DistinctTagged(layers);
      TaggedMembers(layers);
      var remaining := RemoveEach(layers, doomed);
      WithoutTagged(layers);
      DistinctUntagged(layers);
      NoTaggedInUntagged(layers);
      layers := remaining;
    }

    /** The 100 ms timer fires: the waiting overlay is added on top and the globe redrawn. */
    method FireTimeout()
      requires Valid()
      modifies this
      ensures Valid()
      ensures layers == old(layers) + (if old(pending).Some? then [old(pending).value] else [])
      ensures redraws == old(redraws) + (if old(pending).Some? then 1 else 0)
      ensures pending == None
      ensures canvas == old(canvas) && engine == old(engine) && initialized == old(initialized)
      ensures camera == old(camera) && nextUid == old(nextUid) && rotating == old(rotating)
    {
      if pending.Some? {
        TaggedAppend(layers, pending.value);
        DistinctAppend(layers, pending.value);
        layers := layers + [pending.value];
        redraws := redraws + 1;
        pending := None;
      }
    }

    /**
     * `syncCanvasSize`: the drawing buffer follows the container's size, and the
     * globe is redrawn only when that size actually changed.
     */
    method SyncCanvasSize(displayWidth: nat, displayHeight: nat)
      requires Valid()
      modifies this
      ensures Valid()
      ensures old(canvas).Some? && engine ==>
        canvas == Some(Size(displayWidth, displayHeight))
        && redraws == old(redraws) + (if old(canvas).value == Size(displayWidth, displayHeight) then 0 else 1)
      ensures !(old(canvas).Some? && engine) ==> canvas == old(canvas) && redraws == old(redraws)
      ensures layers == old(layers) && pending == old(pending) && camera == old(camera)
      ensures engine == old(engine) && initialized == old(initialized) && nextUid == old(nextUid) && rotating == old(rotating)
    {
      if canvas.None? || !engine {
        return;
      }
      if canvas.value.width != displayWidth || canvas.value.height != displayHeight {
        canvas := Some(Size(displayWidth, displayHeight));
        redraws := redraws + 1;
      }
    }

    /**
     * The rotation effect, run when `autoRotate` changes: the scheduled frame is
     * cancelled; when switched on, one frame runs at once and schedules the next.
     */
    method SetAutoRotate(enabled: bool)
      requires Valid()
      modifies this
      ensures Valid()
      ensures rotating == (engine && enabled)
      ensures camera == (if engine && enabled
                         then old(camera).(longitude := old(camera).longitude + RotationStep) else old(camera))
      ensures redraws == old(redraws) + (if engine && enabled then 1 else 0)
      ensures layers == old(layers) && pending == old(pending) && canvas == old(canvas)
      ensures engine == old(engine) && initialized == old(initialized) && nextUid == old(nextUid)
    {
      rotating := false;
      if !engine {
        return;
      }
      if enabled {
        camera := camera.(longitude := camera.longitude + RotationStep);
        redraws := redraws + 1;
        rotating := true;
      }
    }

    /** A scheduled frame of the rotation loop runs: it turns the globe and schedules the next. */
    method AnimationFrame()
      requires Valid()
      modifies this
      ensures Valid()
      ensures camera == (if old(rotating)
                         then old(camera).(longitude := old(camera).longitude + RotationStep) else old(camera))
      ensures redraws == old(redraws) + (if old(rotating) then 1 else 0)
      ensures rotating == old(rotating) && layers == old(layers) && pending == old(pending) && canvas == old(canvas)
      ensures engine == old(engine) && initialized == old(initialized) && nextUid == old(nextUid)
    {
      if rotating {
        camera := camera.(longitude := camera.longitude + RotationStep);
        redraws := redraws + 1;
      }
    }

    /**
     * `goToLocation`, once its animation has completed: the camera looks at the
     * location from `range`, or from 5000 km when none is given; without a window
     * nothing happens.
     */
    method GoToLocation(latitude: real, longitude: real, range: Option<real>)
      requires Valid()
      modifies this
      ensures Valid()
      ensures camera == (if engine then Camera(latitude, longitude, range.GetOr(DefaultRange)) else old(camera))
      ensures layers == old(layers) && pending == old(pending) && canvas == old(canvas) && redraws == old(redraws)
      ensures engine == old(engine) && initialized == old(initialized) && nextUid == old(nextUid) && rotating == old(rotating)
    {
      if engine {
        camera := Camera(latitude, longitude, range.GetOr(DefaultRange));
      }
    }

    /** `getCanvasDataURL`: a PNG of the canvas at its current size, or none before mount. */
    method CanvasDataUrl() returns (image: Option<Snapshot>)
      ensures image.Some? <==> canvas.Some?
      ensures image.Some? ==> image.value.size == canvas.value
    {
      image := if canvas.Some? then Some(Snapshot(canvas.value)) else None;
    }
  }

  /** No overlay survives the filter that keeps the non-overlay layers. */
  lemma {:induction false} NoTaggedInUntagged(s: seq<MapLayer>)
    ensures Tagged(Untagged(s)) == []
  {
    if s != [] {
      NoTaggedInUntagged(s[1..]);
      var rest := Untagged(s[1..]);
      if IsActive(s[0]) {
        assert Untagged(s) == rest;
      } else {
        assert Untagged(s) == [s[0]] + rest;
        assert ([s[0]] + rest)[1..] == rest;
      }
    }
  }

  /**
   * Switching layers twice, with each timer firing, leaves exactly one overlay
   * on the globe, the second one's.
   */
  method SwitchTwice(first: LayerRecord, second: LayerRecord, time: string, opacity: real, now: Instant)
    returns (overlays: seq<MapLayer>)
    ensures |overlays| == 1 && overlays[0].kind == Overlay(Resolve(Some(second), time, now).value, opacity)
  {
    var globe := new WorldWindMap(true);
    globe.Initialize(true);
    globe.UpdateLayer(Some(first), time, opacity, now);
    globe.FireTimeout();
    ghost var mid := globe.layers;
    globe.UpdateLayer(Some(second), time, opacity, now);
    var overlay := globe.pending.value;
    globe.FireTimeout();
    assert globe.layers == Untagged(mid) + [overlay];
    TaggedAppend(Untagged(mid), overlay);
    NoTaggedInUntagged(mid);
    overlays := Tagged(globe.layers);
  }

  /**
   * Two updates within the 100 ms window: only the second overlay is ever added,
   * the first one's timer having been cancelled.
   */
  method RapidSwitch(first: LayerRecord, second: LayerRecord, time: string, now: Instant)
    returns (overlays: seq<MapLayer>)
    ensures |overlays| == 1 && overlays[0].kind == Overlay(Resolve(Some(second), time, now).value, 0.7)
  {
    var globe := new WorldWindMap(true);
    globe.Initialize(true);
    ghost var start := globe.layers;
    globe.UpdateLayer(Some(first), time, 0.7, now);
    globe.UpdateLayer(Some(second), time, 0.7, now);
    var overlay := globe.pending.value;
    globe.FireTimeout();
    assert globe.layers == Untagged(Untagged(start)) + [overlay];
    TaggedAppend(Untagged(Untagged(start)), overlay);
    NoTaggedInUntagged(Untagged(start));
    overlays := Tagged(globe.layers);
  }
  /**
   * Turning rotation on then off at once: the globe turned by exactly one step,
   * and a frame arriving afterwards does not turn it further.
   */
  method StopRotation() returns (turned: real, scheduled: bool)
    ensures turned == RotationStep && !scheduled
  {
    var globe := new WorldWindMap(true);
    globe.Initialize(true);
    globe.SetAutoRotate(true);
    globe.SetAutoRotate(false);
    globe.AnimationFrame();
    turned := globe.camera.longitude - StartCamera.longitude;
    scheduled := globe.rotating;
  }
}
