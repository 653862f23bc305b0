/**
 * The arithmetic the model viewer performs once a model has loaded:
 * measuring its axis-aligned bounding box, choosing a scale from fixed size
 * tiers, centring it, and framing the camera on the transformed box.
 *
 * A box follows the graphics library's convention: it is empty when some
 * `max` component is below the matching `min` component, and an empty box
 * has a zero centre and a zero size. An object's world transform at load
 * time is `x -> position + scale * x` (its rotation is still zero).
 */
module ViewerGeometry {

  datatype Vec3 = Vec3(x: real, y: real, z: real)

  const Origin: Vec3 := Vec3(0.0, 0.0, 0.0)

  function Add(a: Vec3, b: Vec3): Vec3 {
    Vec3(a.x + b.x, a.y + b.y, a.z + b.z)
  }

  function Sub(a: Vec3, b: Vec3): Vec3 {
    Vec3(a.x - b.x, a.y - b.y, a.z - b.z)
  }

  function Scale(k: real, v: Vec3): Vec3 {
    Vec3(k * v.x, k * v.y, k * v.z)
  }

  function Neg(v: Vec3): Vec3 {
    Vec3(-v.x, -v.y, -v.z)
  }

  function Abs(r: real): real {
    if r < 0.0 then -r else r
  }

  /** `Math.max(a, b, c)`. */
  function Max3(a: real, b: real, c: real): (r: real)
    ensures r >= a && r >= b && r >= c
    ensures r == a || r == b || r == c
  {
    if a >= b && a >= c then a else if b >= c then b else c
  }

  /** The largest of the three components, as the viewer takes `maxDim`. */
  function MaxComponent(v: Vec3): real {
    Max3(v.x, v.y, v.z)
  }

  datatype Box3 = Box3(min: Vec3, max: Vec3)

  predicate IsEmpty(b: Box3) {
    b.max.x < b.min.x || b.max.y < b.min.y || b.max.z < b.min.z
  }

  /** The centre of a box; the origin for an empty box. */
  function Center(b: Box3): (c: Vec3)
    ensures IsEmpty(b) ==> c == Origin
    ensures !IsEmpty(b) ==> b.min.x <= c.x <= b.max.x && b.min.y <= c.y <= b.max.y && b.min.z <= c.z <= b.max.z
    ensures !IsEmpty(b) ==> Sub(c, b.min) == Sub(b.max, c)
  {
    if IsEmpty(b) then Origin else Scale(0.5, Add(b.min, b.max))
  }

  /** The extent of a box along each axis; zero for an empty box. */
  function Size(b: Box3): (s: Vec3)
    ensures IsEmpty(b) ==> s == Origin
    ensures s.x >= 0.0 && s.y >= 0.0 && s.z >= 0.0
    ensures !IsEmpty(b) ==> Add(b.min, s) == b.max
  {
    if IsEmpty(b) then Origin else Sub(b.max, b.min)
  }

  /** The image of `[lo, hi]` under `x -> p + s * x`, lower end first. */
  function MapInterval(lo: real, hi: real, p: real, s: real): (r: (real, real))
    requires lo <= hi
    ensures r.0 <= r.1
    ensures r.0 + r.1 == 2.0 * p + s * (lo + hi)
    ensures r.1 - r.0 == Abs(s) * (hi - lo)
  {
    if s >= 0.0 then
      MulMono(s, lo, hi);
      (p + s * lo, p + s * hi)
    else
      MulMono(-s, lo, hi);
      (p + s * hi, p + s * lo)
  }

  lemma MulMono(k: real, a: real, b: real)
    requires k >= 0.0 && a <= b
    ensures k * a <= k * b
  {
    assert k * b - k * a == k * (b - a);
  }

  /**
   * The bounding box of an object after it is given `position` and uniform
   * `scale`, computed from its box before the transform. An object without
   * geometry keeps an empty box.
   */
  function TransformBox(b: Box3, position: Vec3, scale: real): (r: Box3)
    ensures IsEmpty(r) <==> IsEmpty(b)
    ensures !IsEmpty(b) ==> Center(r) == Add(position, Scale(scale, Center(b)))
    ensures !IsEmpty(b) ==> Size(r) == Scale(Abs(scale), Size(b))
  {
    if IsEmpty(b) then b
    else
      var ix := MapInterval(b.min.x, b.max.x, position.x, scale);
      var iy := MapInterval(b.min.y, b.max.y, position.y, scale);
      var iz := MapInterval(b.min.z, b.max.z, position.z, scale);
      var r := Box3(Vec3(ix.0, iy.0, iz.0), Vec3(ix.1, iy.1, iz.1));
      TransformedCenter(b, position, scale, r);
      TransformedSize(b, scale, r);
      r
  }

  /** The centre part of `TransformBox`'s contract, for the box it builds. */
  lemma TransformedCenter(b: Box3, position: Vec3, scale: real, r: Box3)
    requires !IsEmpty(b)
    requires r.min.x == MapInterval(b.min.x, b.max.x, position.x, scale).0 && r.max.x == MapInterval(b.min.x, b.max.x, position.x, scale).1
    requires r.min.y == MapInterval(b.min.y, b.max.y, position.y, scale).0 && r.max.y == MapInterval(b.min.y, b.max.y, position.y, scale).1
    requires r.min.z == MapInterval(b.min.z, b.max.z, position.z, scale).0 && r.max.z == MapInterval(b.min.z, b.max.z, position.z, scale).1
    ensures !IsEmpty(r)
    ensures Center(r) == Add(position, Scale(scale, Center(b)))
  {
    MapIntervalCenter(b.min.x, b.max.x, position.x, scale);
    MapIntervalCenter(b.min.y, b.max.y, position.y, scale);
    MapIntervalCenter(b.min.z, b.max.z, position.z, scale);
    var c := Center(b);
    assert c == Vec3(0.5 * (b.min.x + b.max.x), 0.5 * (b.min.y + b.max.y), 0.5 * (b.min.z + b.max.z));
    assert Center(r) == Vec3(0.5 * (r.min.x + r.max.x), 0.5 * (r.min.y + r.max.y), 0.5 * (r.min.z + r.max.z));
  }

  /** The size part of `TransformBox`'s contract, for the box it builds. */
  lemma TransformedSize(b: Box3, scale: real, r: Box3)
    requires !IsEmpty(b)
    requires r.max.x - r.min.x == Abs(scale) * (b.max.x - b.min.x) && r.min.x <= r.max.x
    requires r.max.y - r.min.y == Abs(scale) * (b.max.y - b.min.y) && r.min.y <= r.max.y
    requires r.max.z - r.min.z == Abs(scale) * (b.max.z - b.min.z) && r.min.z <= r.max.z
    ensures Size(r) == Scale(Abs(scale), Size(b))
  {
    assert Size(b) == Vec3(b.max.x - b.min.x, b.max.y - b.min.y, b.max.z - b.min.z);
    assert Size(r) == Vec3(r.max.x - r.min.x, r.max.y - r.min.y, r.max.z - r.min.z);
  }

  /** The midpoint of the mapped interval is the image of the midpoint. */
  lemma MapIntervalCenter(lo: real, hi: real, p: real, s: real)
    requires lo <= hi
    ensures var r := MapInterval(lo, hi, p, s); 0.5 * (r.0 + r.1) == p + s * (0.5 * (lo + hi))
  {
    var r := MapInterval(lo, hi, p, s);
    assert r.0 + r.1 == 2.0 * p + s * (lo + hi);
    assert s * (0.5 * (lo + hi)) == 0.5 * (s * (lo + hi));
  }

  /** The size tiers of the auto-scaling step. */
  const TinyBelow: real := 0.5
  const SmallBelow: real := 2.0
  const MediumBelow: real := 10.0

  /**
   * The scale the viewer applies: 1 with auto-scaling off; otherwise 50, 20
   * or 5 for a largest dimension below 0.5, 2 or 10, and `targetSize / maxDim`
   * from 10 on.
   */
  function AutoScale(autoScale: bool, targetSize: real, maxDim: real): (s: real)
    ensures !autoScale ==> s == 1.0
    ensures autoScale && maxDim < TinyBelow ==> s == 50.0
    ensures autoScale && TinyBelow <= maxDim < SmallBelow ==> s == 20.0
    ensures autoScale && SmallBelow <= maxDim < MediumBelow ==> s == 5.0
    ensures targetSize > 0.0 ==> s > 0.0
    ensures autoScale && maxDim >= MediumBelow ==> s * maxDim == targetSize
    ensures autoScale && 0.0 <= maxDim < TinyBelow ==> 0.0 <= s * maxDim < 25.0
    ensures autoScale && TinyBelow <= maxDim < MediumBelow ==> 10.0 <= s * maxDim < 50.0
  {
    if !autoScale then 1.0
    else if maxDim < TinyBelow then 50.0
    else if maxDim < SmallBelow then 20.0
    else if maxDim < MediumBelow then 5.0
    else targetSize / maxDim
  }

  datatype Camera = Camera(position: Vec3, lookAt: Vec3)

  /** The camera the viewer starts with and returns to on reset. */
  const HomeCamera: Camera := Camera(Vec3(0.0, 2.0, 15.0), Vec3(0.0, 1.0, 0.0))

  /** The camera used with the placeholder model. */
  const PlaceholderCamera: Camera := Camera(Vec3(0.0, 4.0, 15.0), Origin)

  /**
   * Camera framing: look at the box centre from `1.8 * m` in front of it and
   * `0.3 * m` above it, where `m` is the box's largest dimension.
   */
  function FrameCamera(b: Box3): (c: Camera)
    ensures c.lookAt == Center(b)
    ensures Sub(c.position, c.lookAt) == Vec3(0.0, 0.3 * MaxComponent(Size(b)), 1.8 * MaxComponent(Size(b)))
  {
    var center := Center(b);
    var m := MaxComponent(Size(b));
    Camera(Vec3(center.x, center.y + m * 0.3, center.z + m * 1.8), center)
  }

  /** Where a freshly loaded object ends up, and the camera that frames it. */
  datatype Placement = Placement(position: Vec3, scale: real, worldBox: Box3, camera: Camera)

  /**
   * The load-success arithmetic: position the object at the negated centre
   * of its box, scale it by the tier rule, and frame the camera on the box
   * the object then occupies.
   */
  function PlaceLoadedObject(box: Box3, autoScale: bool, targetSize: real): (pl: Placement)
    ensures pl.position == Neg(Center(box))
    ensures pl.scale == AutoScale(autoScale, targetSize, MaxComponent(Size(box)))
    ensures IsEmpty(pl.worldBox) <==> IsEmpty(box)
    ensures !IsEmpty(box) ==> Center(pl.worldBox) == Scale(pl.scale - 1.0, Center(box))
    ensures !IsEmpty(box) ==> Size(pl.worldBox) == Scale(Abs(pl.scale), Size(box))
    ensures pl.camera.lookAt == Center(pl.worldBox)
    ensures Sub(pl.camera.position, pl.camera.lookAt) ==
              Vec3(0.0, 0.3 * MaxComponent(Size(pl.worldBox)), 1.8 * MaxComponent(Size(pl.worldBox)))
  {
    var position := Neg(Center(box));
    var scale := AutoScale(autoScale, targetSize, MaxComponent(Size(box)));
    var world := TransformBox(box, position, scale);
    CentredThenScaled(box, scale, world);
    Placement(position, scale, world, FrameCamera(world))
  }

  /** The box of an object placed at its negated centre, then scaled by `scale`. */
  lemma CentredThenScaled(box: Box3, scale: real, world: Box3)
    requires world == TransformBox(box, Neg(Center(box)), scale)
    ensures IsEmpty(world) <==> IsEmpty(box)
    ensures !IsEmpty(box) ==> Center(world) == Scale(scale - 1.0, Center(box))
    ensures !IsEmpty(box) ==> Size(world) == Scale(Abs(scale), Size(box))
  {
    ShiftThenScale(scale, Center(box));
  }

  /** Scaling a vector by a non-negative factor scales its largest component. */
  lemma MaxComponentScale(k: real, v: Vec3)
    requires k >= 0.0
    ensures MaxComponent(Scale(k, v)) == k * MaxComponent(v)
  {
    var m := MaxComponent(v);
    MulMono(k, v.x, m);
    MulMono(k, v.y, m);
    MulMono(k, v.z, m);
    assert k * m == k * v.x || k * m == k * v.y || k * m == k * v.z;
    var r := MaxComponent(Scale(k, v));
    assert r <= k * m;
    assert r >= k * m;
  }

  /** `-c + s * c` is `(s - 1) * c`, componentwise. */
  lemma ShiftThenScale(s: real, c: Vec3)
    ensures Add(Neg(c), Scale(s, c)) == Scale(s - 1.0, c)
  {
    assert -c.x + s * c.x == (s - 1.0) * c.x;
    assert -c.y + s * c.y == (s - 1.0) * c.y;
    assert -c.z + s * c.z == (s - 1.0) * c.z;
  }

  /**
   * The object is positioned at its negated centre BEFORE it is scaled, so
   * the centre of its world box is `(scale - 1) * c`, not the origin; the
   * camera looks at that point from the framing offset.
   */
  lemma LoadedCameraFramesModel(box: Box3, autoScale: bool, targetSize: real)
    requires !IsEmpty(box)
    ensures var pl := PlaceLoadedObject(box, autoScale, targetSize);
      && Center(pl.worldBox) == Scale(pl.scale - 1.0, Center(box))
      && pl.camera.lookAt == Center(pl.worldBox)
  {
    var pl := PlaceLoadedObject(box, autoScale, targetSize);
    var c := Center(box);
    assert Center(pl.worldBox) == Add(Neg(c), Scale(pl.scale, c));
    ShiftThenScale(pl.scale, c);
  }

  /**
   * When a large model is scaled to the target size, the camera ends up
   * `1.8 * targetSize` in front of the model's centre and `0.3 * targetSize` above it.
   */
  lemma LargeModelCameraDistance(box: Box3, targetSize: real)
    requires !IsEmpty(box) && targetSize > 0.0
    requires MaxComponent(Size(box)) >= MediumBelow
    ensures var pl := PlaceLoadedObject(box, true, targetSize);
      Sub(pl.camera.position, pl.camera.lookAt) == Vec3(0.0, 0.3 * targetSize, 1.8 * targetSize)
  {
    var pl := PlaceLoadedObject(box, true, targetSize);
    var size := Size(box);
    var s := pl.scale;
    assert s * MaxComponent(size) == targetSize && s > 0.0;
    assert Size(pl.worldBox) == Scale(Abs(s), size);
    assert Abs(s) == s;
    MaxComponentScale(s, size);
    assert MaxComponent(Size(pl.worldBox)) == targetSize;
  }

  /**
   * A loaded object without geometry has an empty box: its largest dimension
   * counts as 0, so auto-scaling picks the tiny tier, and the camera ends up
   * at the origin looking at the origin.
   */
  lemma EmptyModelPlacement(box: Box3, targetSize: real)
    requires IsEmpty(box)
    ensures var pl := PlaceLoadedObject(box, true, targetSize);
      pl.scale == 50.0 && pl.position == Origin && pl.camera == Camera(Origin, Origin)
  {
    assert MaxComponent(Size(box)) == 0.0;
    var pl := PlaceLoadedObject(box, true, targetSize);
    assert IsEmpty(pl.worldBox);
    assert Center(pl.worldBox) == Origin && MaxComponent(Size(pl.worldBox)) == 0.0;
    assert pl.camera.position == Vec3(0.0, 0.0 + 0.0 * 0.3, 0.0 + 0.0 * 1.8);
  }

  lemma ZeroProduct(a: real, b: real)
    ensures a * b == 0.0 <==> a == 0.0 || b == 0.0
  {
  }

  /** Centring only reaches the origin when no scaling happens or the box was already centred. */
  lemma CentredAtOriginIff(box: Box3, autoScale: bool, targetSize: real)
    requires !IsEmpty(box)
    ensures var pl := PlaceLoadedObject(box, autoScale, targetSize);
      Center(pl.worldBox) == Origin <==> pl.scale == 1.0 || Center(box) == Origin
  {
    var pl := PlaceLoadedObject(box, autoScale, targetSize);
    LoadedCameraFramesModel(box, autoScale, targetSize);
    ScaleIsOrigin(pl.scale - 1.0, Center(box));
  }

  lemma ScaleIsOrigin(k: real, c: Vec3)
    ensures Scale(k, c) == Origin <==> k == 0.0 || c == Origin
  {
    ZeroProduct(k, c.x);
    ZeroProduct(k, c.y);
    ZeroProduct(k, c.z);
  }
}
