/** Pure geometry of the runner: the numeric helpers, axis-aligned hit boxes
    and the perspective projection used by the renderer. */
module Geometry {
  import opened Config

  function Abs(v: real): real { if v < 0.0 then -v else v }

  /** Math.sign on a real. */
  function Sign(v: real): real { if v > 0.0 then 1.0 else if v < 0.0 then -1.0 else 0.0 }

  function Min(a: real, b: real): real { if a <= b then a else b }

  function Max(a: real, b: real): real { if a >= b then a else b }

  /** Linear interpolation from `a` towards `b`: the distance left to `b`
      is the old distance scaled by 1 - t. */
  function Lerp(a: real, b: real, t: real): (r: real)
    ensures r - b == (1.0 - t) * (a - b)
    ensures 0.0 <= t <= 1.0 ==> Min(a, b) <= r <= Max(a, b)
  {
    LerpBetween(a, b, t);
    a + (b - a) * t
  }

  lemma LerpBetween(a: real, b: real, t: real)
    ensures 0.0 <= t <= 1.0 ==> Min(a, b) <= a + (b - a) * t <= Max(a, b)
  {
    if 0.0 <= t <= 1.0 {
      if a <= b {
        MulBetween(b - a, t);
      } else {
        MulBetween(a - b, t);
      }
    }
  }

  /** A non-negative quantity scaled by a fraction stays between 0 and itself. */
  lemma MulBetween(d: real, t: real)
    requires d >= 0.0 && 0.0 <= t <= 1.0
    ensures 0.0 <= d * t <= d
  {
    assert d * (1.0 - t) >= 0.0;
  }

  lemma MulNonNegative(a: real, b: real)
    requires a >= 0.0 && b >= 0.0
    ensures a * b >= 0.0
  {
  }

  /** The distance covered in a frame of dt seconds at `speed`. */
  function Travel(speed: real, dt: real): (r: real)
    ensures speed >= 0.0 && dt >= 0.0 ==> r >= 0.0
  {
    speed * dt
  }

  /** max(lo, min(hi, v)): `v` pushed into [lo, hi]. */
  function Clamp(v: real, lo: real, hi: real): (r: real)
    ensures lo <= hi ==> lo <= r <= hi
    ensures lo <= v <= hi ==> r == v
    ensures lo <= hi && v < lo ==> r == lo
    ensures lo <= hi && hi < v ==> r == hi
  {
    Max(lo, Min(hi, v))
  }

  /** An axis-aligned box given by its low corner and its size on each axis. */
  datatype Box = Box(x: real, y: real, z: real, width: real, height: real, depth: real)

  /** The overlap test of the collision code: the open intervals of the two
      boxes intersect on all three axes, compared strictly. */
  predicate BoxesOverlap(a: Box, b: Box) {
    && a.x < b.x + b.width
    && a.x + a.width > b.x
    && a.y < b.y + b.height
    && a.y + a.height > b.y
    && a.z < b.z + b.depth
    && a.z + a.depth > b.z
  }

  lemma BoxesOverlapSymmetric(a: Box, b: Box)
    ensures BoxesOverlap(a, b) == BoxesOverlap(b, a)
  {
  }

  /** Boxes that meet only along a face, on any one axis, do not overlap. */
  lemma TouchingBoxesDoNotOverlap(a: Box, b: Box)
    requires || a.x + a.width == b.x || b.x + b.width == a.x
             || a.y + a.height == b.y || b.y + b.height == a.y
             || a.z + a.depth == b.z || b.z + b.depth == a.z
    ensures !BoxesOverlap(a, b)
  {
  }

  /** A box with positive extent on every axis. */
  predicate Proper(b: Box) {
    b.width > 0.0 && b.height > 0.0 && b.depth > 0.0
  }

  /** Point (px, py, pz) lies in the open interior of `b`. */
  predicate Inside(px: real, py: real, pz: real, b: Box) {
    && b.x < px < b.x + b.width
    && b.y < py < b.y + b.height
    && b.z < pz < b.z + b.depth
  }

  /** Reference meaning of the overlap test: two proper boxes overlap exactly
      when some point lies strictly inside both. */
  lemma OverlapMeansSharedPoint(a: Box, b: Box)
    requires Proper(a) && Proper(b)
    ensures BoxesOverlap(a, b) <==>
            exists px, py, pz :: Inside(px, py, pz, a) && Inside(px, py, pz, b)
  {
    if BoxesOverlap(a, b) {
      var px := (Max(a.x, b.x) + Min(a.x + a.width, b.x + b.width)) / 2.0;
      var py := (Max(a.y, b.y) + Min(a.y + a.height, b.y + b.height)) / 2.0;
      var pz := (Max(a.z, b.z) + Min(a.z + a.depth, b.z + b.depth)) / 2.0;
      assert Inside(px, py, pz, a) && Inside(px, py, pz, b);
    }
  }

  /** The camera constants the renderer derives from the viewport size. */
  datatype Camera = Camera(cx: real, horizonY: real, groundY: real, roadHW: real, unitH: real, camDepth: real)

  /** Renderer.resize: every derived constant recomputed from width and height. */
  function Viewport(w: real, h: real): (c: Camera)
    ensures c.camDepth == CAMERA_DEPTH
    ensures h > 0.0 ==> 0.0 < c.horizonY < c.groundY < h
    ensures 2.0 * c.cx == w
  {
    Camera(w / 2.0, h * HORIZON_RATIO, h * GROUND_RATIO, w * ROAD_WIDTH_FACTOR, h * UNIT_HEIGHT_FACTOR, CAMERA_DEPTH)
  }

  datatype Projection = Projection(x: real, y: real, scale: real)

  /** The perspective shrink factor at depth `wz`, after the near-plane clamp. */
  function Scale(camDepth: real, wz: real): real
    requires camDepth > 0.0
  {
    var z := if wz < NEAR_Z then NEAR_Z else wz;
    camDepth / (z + camDepth)
  }

  lemma ScaleInUnitInterval(camDepth: real, wz: real)
    requires camDepth > 0.0
    ensures 0.0 < Scale(camDepth, wz) < 1.0
  {
    var z := if wz < NEAR_Z then NEAR_Z else wz;
    assert z + camDepth > camDepth > 0.0;
  }

  /** Renderer.project: a perspective divide after clamping the depth. */
  function Project(cam: Camera, wx: real, wy: real, wz: real): (p: Projection)
    requires cam.camDepth > 0.0
    ensures 0.0 < p.scale < 1.0
    ensures wx == 0.0 ==> p.x == cam.cx
  {
    var scale := Scale(cam.camDepth, wz);
    ScaleInUnitInterval(cam.camDepth, wz);
    assert wx == 0.0 ==> wx * scale * cam.roadHW == 0.0;
    Projection(cam.cx + wx * scale * cam.roadHW,
               cam.horizonY + (cam.groundY - cam.horizonY) * scale - wy * scale * cam.unitH,
               scale)
  }

  /** Depths closer than the near plane project exactly like the near plane. */
  lemma ProjectClampsNearPlane(cam: Camera, wx: real, wy: real, wz: real)
    requires cam.camDepth > 0.0 && wz <= NEAR_Z
    ensures Project(cam, wx, wy, wz) == Project(cam, wx, wy, NEAR_Z)
  {
    assert Scale(cam.camDepth, wz) == Scale(cam.camDepth, NEAR_Z);
  }

  /** Farther never draws larger: the scale does not increase with depth. */
  lemma ScaleNonIncreasing(cam: Camera, wx: real, wy: real, z1: real, z2: real)
    requires cam.camDepth > 0.0 && z1 <= z2
    ensures Project(cam, wx, wy, z2).scale <= Project(cam, wx, wy, z1).scale
  {
    var d := cam.camDepth;
    var c1 := if z1 < NEAR_Z then NEAR_Z else z1;
    var c2 := if z2 < NEAR_Z then NEAR_Z else z2;
    assert 0.0 < c1 + d <= c2 + d;
    DivideAntitone(d, c1 + d, c2 + d);
  }

  /** Beyond the near plane the scale strictly decreases with depth. */
  lemma ScaleStrictlyDecreasing(cam: Camera, wx: real, wy: real, z1: real, z2: real)
    requires cam.camDepth > 0.0 && NEAR_Z <= z1 < z2
    ensures Project(cam, wx, wy, z2).scale < Project(cam, wx, wy, z1).scale
  {
    var d := cam.camDepth;
    StrictDivideAntitone(d, z1 + d, z2 + d);
  }

  lemma DivideAntitone(n: real, a: real, b: real)
    requires n > 0.0 && 0.0 < a <= b
    ensures n / b <= n / a
  {
    var qa, qb := n / a, n / b;
    assert qa * a == n && qb * b == n;
    assert qb > 0.0;
    assert qb * a <= qb * b;
    assert (qa - qb) * a >= 0.0;
  }

  lemma StrictDivideAntitone(n: real, a: real, b: real)
    requires n > 0.0 && 0.0 < a < b
    ensures n / b < n / a
  {
    var qa, qb := n / a, n / b;
    assert qa * a == n && qb * b == n;
    assert qb > 0.0;
    assert qb * a < qb * b;
    assert (qa - qb) * a > 0.0;
  }
}
