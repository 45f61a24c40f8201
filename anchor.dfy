/** Anchor-point arithmetic (`getAnchorPointBounds`, `getAnchorPointActual`
    and the translation of `setAnchorPoint`). An anchor is a position inside
    the bounding box of a mesh's x and z coordinates, (0, 0) at the box's
    minimum corner and (1, 1) at its maximum; setting it moves the mesh so
    that this position lands on the object's origin. */
module Anchor {
  import opened Wrappers
  import opened Geometry
  import opened AtlasRecord

  /** Bounds of the x and z coordinates, as `(min, max)` in the source. */
  datatype Box = Box(minX: real, minZ: real, maxX: real, maxZ: real)

  /** A pair of x and z values: an anchor or a translation. */
  datatype Point2 = Point2(x: real, z: real)

  /** The sentinel the bounds scan starts from (nine nines). */
  const Sentinel: real := 999999999.0

  /** The scan's start with the same sentinel on every side. */
  const EmptyBox: Box := Box(Sentinel, Sentinel, -Sentinel, -Sentinel)

  /** The scan's start as written in the source: `min[1]` has eight nines. */
  const EmptyBoxAsWritten: Box := Box(Sentinel, 99999999.0, -Sentinel, -Sentinel)

  /** One pass of the scan's loop body: each side moves only on a strict
      improvement. */
  function Include(b: Box, v: Vec3): Box {
    Box(if v.x < b.minX then v.x else b.minX,
        if v.z < b.minZ then v.z else b.minZ,
        if v.x > b.maxX then v.x else b.maxX,
        if v.z > b.maxZ then v.z else b.maxZ)
  }

  /** The scan over `vs` in order, starting from `init`. */
  function BoundsFrom(init: Box, vs: seq<Vec3>): Box
    decreases |vs|
  {
    if vs == [] then init else Include(BoundsFrom(init, vs[..|vs| - 1]), vs[|vs| - 1])
  }

  /** The bounds scan used by the rest of the model. */
  function Bounds(vs: seq<Vec3>): Box { BoundsFrom(EmptyBox, vs) }

  /** The bounds scan exactly as the source writes it. */
  function BoundsAsWritten(vs: seq<Vec3>): Box { BoundsFrom(EmptyBoxAsWritten, vs) }

  predicate Contains(b: Box, vs: seq<Vec3>) {
    forall i :: 0 <= i < |vs| ==> b.minX <= vs[i].x <= b.maxX && b.minZ <= vs[i].z <= b.maxZ
  }

  /** Every side of the box is some vertex's coordinate. */
  predicate Attained(b: Box, vs: seq<Vec3>) {
    (exists i :: 0 <= i < |vs| && vs[i].x == b.minX) &&
    (exists i :: 0 <= i < |vs| && vs[i].z == b.minZ) &&
    (exists i :: 0 <= i < |vs| && vs[i].x == b.maxX) &&
    (exists i :: 0 <= i < |vs| && vs[i].z == b.maxZ)
  }

  /** Coordinates no farther from zero than the sentinel. */
  predicate InRange(vs: seq<Vec3>) {
    forall i :: 0 <= i < |vs| ==> -Sentinel <= vs[i].x <= Sentinel && -Sentinel <= vs[i].z <= Sentinel
  }

  /** Whatever the start, every scanned vertex lies inside the result. */
  lemma {:induction false} BoundsContain(init: Box, vs: seq<Vec3>)
    ensures Contains(BoundsFrom(init, vs), vs)
    decreases |vs|
  {
    if vs != [] {
      var p := vs[..|vs| - 1];
      BoundsContain(init, p);
      assert forall i :: 0 <= i < |p| ==> vs[i] == p[i];
    }
  }

  /** For a nonempty mesh inside the sentinel range, every side of the
      scanned box is a vertex coordinate: the box is the tight bounding box. */
  lemma {:induction false} BoundsAttained(vs: seq<Vec3>)
    requires |vs| > 0 && InRange(vs)
    ensures Attained(Bounds(vs), vs)
    decreases |vs|
  {
    var p := vs[..|vs| - 1];
    var v := vs[|vs| - 1];
    var b := Bounds(vs);
    assert forall i :: 0 <= i < |p| ==> vs[i] == p[i];
    if p == [] {
      assert b == Include(BoundsFrom(EmptyBox, []), v);
      assert -Sentinel <= v.x <= Sentinel && -Sentinel <= v.z <= Sentinel;
      assert vs[0].x == b.minX && vs[0].z == b.minZ && vs[0].x == b.maxX && vs[0].z == b.maxZ;
    } else {
      BoundsAttained(p);
      var q := Bounds(p);
      assert b == Include(q, v);
      if v.x < q.minX { assert vs[|vs| - 1].x == b.minX; }
      else { var i :| 0 <= i < |p| && p[i].x == q.minX; assert vs[i].x == b.minX; }
      if v.z < q.minZ { assert vs[|vs| - 1].z == b.minZ; }
      else { var i :| 0 <= i < |p| && p[i].z == q.minZ; assert vs[i].z == b.minZ; }
      if v.x > q.maxX { assert vs[|vs| - 1].x == b.maxX; }
      else { var i :| 0 <= i < |p| && p[i].x == q.maxX; assert vs[i].x == b.maxX; }
      if v.z > q.maxZ { assert vs[|vs| - 1].z == b.maxZ; }
      else { var i :| 0 <= i < |p| && p[i].z == q.maxZ; assert vs[i].z == b.maxZ; }
    }
  }

  /** Only one box both contains a mesh and touches it on every side. */
  lemma TightBoxUnique(b: Box, c: Box, vs: seq<Vec3>)
    requires Contains(b, vs) && Attained(b, vs)
    requires Contains(c, vs) && Attained(c, vs)
    ensures b == c
  {
    var i1 :| 0 <= i1 < |vs| && vs[i1].x == b.minX;
    var j1 :| 0 <= j1 < |vs| && vs[j1].x == c.minX;
    var i2 :| 0 <= i2 < |vs| && vs[i2].z == b.minZ;
    var j2 :| 0 <= j2 < |vs| && vs[j2].z == c.minZ;
    var i3 :| 0 <= i3 < |vs| && vs[i3].x == b.maxX;
    var j3 :| 0 <= j3 < |vs| && vs[j3].x == c.maxX;
    var i4 :| 0 <= i4 < |vs| && vs[i4].z == b.maxZ;
    var j4 :| 0 <= j4 < |vs| && vs[j4].z == c.maxZ;
  }

  /** The tight box of an in-range mesh is its scanned box. */
  lemma BoundsIsTight(b: Box, vs: seq<Vec3>)
    requires |vs| > 0 && InRange(vs)
    requires Contains(b, vs) && Attained(b, vs)
    ensures Bounds(vs) == b
  {
    BoundsContain(EmptyBox, vs);
    BoundsAttained(vs);
    TightBoxUnique(Bounds(vs), b, vs);
  }

  /** Every vertex moved by `t` in x and z; y untouched. */
  function Shifted(vs: seq<Vec3>, t: Point2): (ws: seq<Vec3>)
    ensures |ws| == |vs|
    ensures forall i :: 0 <= i < |vs| ==> ws[i] == Vec3(vs[i].x + t.x, vs[i].y, vs[i].z + t.z)
  {
    seq(|vs|, i requires 0 <= i < |vs| => Vec3(vs[i].x + t.x, vs[i].y, vs[i].z + t.z))
  }

  function ShiftBox(b: Box, t: Point2): Box {
    Box(b.minX + t.x, b.minZ + t.z, b.maxX + t.x, b.maxZ + t.z)
  }

  /** Moving a mesh moves its bounding box by the same amount, so its width
      and height are unchanged (while both meshes stay inside the sentinels). */
  lemma BoundsShift(vs: seq<Vec3>, t: Point2)
    requires |vs| > 0 && InRange(vs) && InRange(Shifted(vs, t))
    ensures Bounds(Shifted(vs, t)) == ShiftBox(Bounds(vs), t)
  {
    var b := Bounds(vs);
    var ws := Shifted(vs, t);
    BoundsContain(EmptyBox, vs);
    BoundsAttained(vs);
    var c := ShiftBox(b, t);
    var i1 :| 0 <= i1 < |vs| && vs[i1].x == b.minX;
    var i2 :| 0 <= i2 < |vs| && vs[i2].z == b.minZ;
    var i3 :| 0 <= i3 < |vs| && vs[i3].x == b.maxX;
    var i4 :| 0 <= i4 < |vs| && vs[i4].z == b.maxZ;
    assert ws[i1].x == c.minX && ws[i2].z == c.minZ && ws[i3].x == c.maxX && ws[i4].z == c.maxZ;
    BoundsIsTight(c, ws);
  }

  /** `setAnchorPoint`'s translation: the point at relative position `p` of
      box `b` is moved onto the origin. */
  function Translation(b: Box, p: Point2): Point2 {
    Point2(-(b.maxX - b.minX) * p.x - b.minX, -(b.maxZ - b.minZ) * p.z - b.minZ)
  }

  /** `getAnchorPointActual`: where the origin lies, relative to the box;
      `None` where the source divides by a zero width or height. */
  function Actual(b: Box): Option<Point2> {
    if b.maxX - b.minX == 0.0 || b.maxZ - b.minZ == 0.0 then None
    else Some(Point2(-(b.minX / (b.maxX - b.minX)), -(b.minZ / (b.maxZ - b.minZ))))
  }

  /** The point at relative position `p` of the box is carried exactly to
      the origin by the translation. */
  lemma TranslationCentresAnchor(b: Box, p: Point2)
    ensures var t := Translation(b, p);
      b.minX + p.x * (b.maxX - b.minX) + t.x == 0.0 &&
      b.minZ + p.z * (b.maxZ - b.minZ) + t.z == 0.0
  {
  }

  /** The actual anchor is exactly the relative position of the origin in a
      box of nonzero width and height. */
  lemma ActualLocatesOrigin(b: Box, p: Point2)
    ensures Actual(b) == Some(p) <==>
      b.maxX != b.minX && b.maxZ != b.minZ &&
      b.minX + p.x * (b.maxX - b.minX) == 0.0 &&
      b.minZ + p.z * (b.maxZ - b.minZ) == 0.0
  {
    if b.maxX != b.minX && b.maxZ != b.minZ {
      var w := b.maxX - b.minX;
      var h := b.maxZ - b.minZ;
      assert -(b.minX / w) * w == -b.minX;
      assert -(b.minZ / h) * h == -b.minZ;
      if b.minX + p.x * w == 0.0 {
        assert p.x == -(b.minX / w);
      }
      if b.minZ + p.z * h == 0.0 {
        assert p.z == -(b.minZ / h);
      }
    }
  }

  /** After moving a box by the translation for `p`, the actual anchor is
      `p` (for a box of nonzero width and height). */
  lemma ActualAfterTranslation(b: Box, p: Point2)
    requires b.maxX != b.minX && b.maxZ != b.minZ
    ensures Actual(ShiftBox(b, Translation(b, p))) == Some(p)
  {
    var c := ShiftBox(b, Translation(b, p));
    assert c.maxX - c.minX == b.maxX - b.minX;
    assert c.maxZ - c.minZ == b.maxZ - b.minZ;
    TranslationCentresAnchor(b, p);
    ActualLocatesOrigin(c, p);
  }

  /** Setting the same anchor a second time moves nothing. */
  lemma ReapplyIsNoOp(b: Box, p: Point2)
    ensures Translation(ShiftBox(b, Translation(b, p)), p) == Point2(0.0, 0.0)
  {
  }

  /** Setting the anchor the mesh already has moves nothing. */
  lemma ActualIsNoOp(b: Box, p: Point2)
    requires Actual(b) == Some(p)
    ensures Translation(b, p) == Point2(0.0, 0.0)
  {
    ActualLocatesOrigin(b, p);
  }

  /** For a mesh that stays inside the sentinels, setting anchor `p` makes
      `p` the mesh's actual anchor, and setting it again moves nothing. */
  lemma SetAnchorThenActual(vs: seq<Vec3>, p: Point2)
    requires |vs| > 0 && InRange(vs)
    requires Bounds(vs).maxX != Bounds(vs).minX && Bounds(vs).maxZ != Bounds(vs).minZ
    requires InRange(Shifted(vs, Translation(Bounds(vs), p)))
    ensures var moved := Shifted(vs, Translation(Bounds(vs), p));
      Actual(Bounds(moved)) == Some(p) && Translation(Bounds(moved), p) == Point2(0.0, 0.0)
  {
    var b := Bounds(vs);
    BoundsShift(vs, Translation(b, p));
    ActualAfterTranslation(b, p);
    ReapplyIsNoOp(b, p);
  }

  lemma MulMono(a: int, c: int, u: real)
    requires a <= c && u > 0.0
    ensures a as real * u <= c as real * u
  {
    assert (c - a) as real * u >= 0.0;
  }

  lemma MulPositive(a: int, u: real)
    requires a > 0 && u > 0.0
    ensures a as real * u > 0.0
  {
  }

  /** The pixel-space box of a frame's six vertices when the trimmed quad
      lies inside the untrimmed sprite. */
  lemma PixelsInSprite(r: FrameRecord, i: nat)
    requires i < 6
    requires 0 <= r.width && 0 <= r.height
    requires !r.rotated ==> 0 <= r.xOffset && r.xOffset + r.width <= r.origW &&
                            0 <= r.yOffset && r.yOffset + r.height <= r.origH
    requires r.rotated ==> 0 <= r.yOffset && r.yOffset + r.height <= r.origW &&
                           0 <= r.xOffset && r.xOffset + r.width <= r.origH
    ensures 0 <= PixelVerts(r)[i].x <= r.origW && 0 <= PixelVerts(r)[i].z <= r.origH
  {
  }

  lemma ScaledBetween(p: Pixel, w: int, h: int, u: real)
    requires u > 0.0 && 0 <= p.x <= w && 0 <= p.z <= h
    ensures 0.0 <= Scale(p, u).x <= w as real * u && 0.0 <= Scale(p, u).z <= h as real * u
  {
    MulMono(0, p.x, u);
    MulMono(p.x, w, u);
    MulMono(0, p.z, u);
    MulMono(p.z, h, u);
  }

  /** Imported frames carry the origin and the untrimmed sprite's far
      corner as vertices, so for a trimmed quad lying inside the untrimmed
      sprite, the anchor box is the whole untrimmed sprite. */
  lemma FrameAnchorBox(r: FrameRecord, unitPerPixel: real)
    requires unitPerPixel > 0.0
    requires 0 <= r.width && 0 <= r.height
    requires !r.rotated ==> 0 <= r.xOffset && r.xOffset + r.width <= r.origW &&
                            0 <= r.yOffset && r.yOffset + r.height <= r.origH
    requires r.rotated ==> 0 <= r.yOffset && r.yOffset + r.height <= r.origW &&
                           0 <= r.xOffset && r.xOffset + r.width <= r.origH
    requires InRange(FrameVerts(r, unitPerPixel))
    ensures Bounds(FrameVerts(r, unitPerPixel)) ==
      Box(0.0, 0.0, r.origW as real * unitPerPixel, r.origH as real * unitPerPixel)
  {
    var vs := FrameVerts(r, unitPerPixel);
    var b := Box(0.0, 0.0, r.origW as real * unitPerPixel, r.origH as real * unitPerPixel);
    forall i | 0 <= i < 6
      ensures b.minX <= vs[i].x <= b.maxX && b.minZ <= vs[i].z <= b.maxZ
    {
      VertexInSprite(r, unitPerPixel, i);
    }
    assert Contains(b, vs);
    FrameCorners(r, unitPerPixel);
    assert Attained(b, vs);
    BoundsIsTight(b, vs);
  }

  /** One scaled vertex of such a frame lies in the scaled untrimmed sprite. */
  lemma VertexInSprite(r: FrameRecord, unitPerPixel: real, i: nat)
    requires unitPerPixel > 0.0 && i < 6
    requires 0 <= r.width && 0 <= r.height
    requires !r.rotated ==> 0 <= r.xOffset && r.xOffset + r.width <= r.origW &&
                            0 <= r.yOffset && r.yOffset + r.height <= r.origH
    requires r.rotated ==> 0 <= r.yOffset && r.yOffset + r.height <= r.origW &&
                           0 <= r.xOffset && r.xOffset + r.width <= r.origH
    ensures var v := FrameVerts(r, unitPerPixel)[i];
      0.0 <= v.x <= r.origW as real * unitPerPixel && 0.0 <= v.z <= r.origH as real * unitPerPixel
  {
    var p := PixelVerts(r)[i];
    PixelsInSprite(r, i);
    ScaledBetween(p, r.origW, r.origH, unitPerPixel);
  }

  /** Vertices 4 and 5 sit on the untrimmed sprite's two corners. */
  lemma FrameCorners(r: FrameRecord, unitPerPixel: real)
    ensures var vs := FrameVerts(r, unitPerPixel);
      vs[4].x == 0.0 && vs[4].z == 0.0 &&
      vs[5].x == r.origW as real * unitPerPixel && vs[5].z == r.origH as real * unitPerPixel
  {
    assert PixelVerts(r)[4] == Pixel(0, 0, 0) && PixelVerts(r)[5] == Pixel(r.origW, 0, r.origH);
  }

  /** So a freshly imported frame's actual anchor is (0, 0): the origin is
      the untrimmed sprite's bottom-left corner. */
  lemma FrameActualAnchor(r: FrameRecord, unitPerPixel: real)
    requires unitPerPixel > 0.0 && r.origW > 0 && r.origH > 0
    requires 0 <= r.width && 0 <= r.height
    requires !r.rotated ==> 0 <= r.xOffset && r.xOffset + r.width <= r.origW &&
                            0 <= r.yOffset && r.yOffset + r.height <= r.origH
    requires r.rotated ==> 0 <= r.yOffset && r.yOffset + r.height <= r.origW &&
                           0 <= r.xOffset && r.xOffset + r.width <= r.origH
    requires InRange(FrameVerts(r, unitPerPixel))
    ensures Actual(Bounds(FrameVerts(r, unitPerPixel))) == Some(Point2(0.0, 0.0))
  {
    FrameAnchorBox(r, unitPerPixel);
    var w := r.origW as real * unitPerPixel;
    var h := r.origH as real * unitPerPixel;
    MulPositive(r.origW, unitPerPixel);
    MulPositive(r.origH, unitPerPixel);
    assert 0.0 / w == 0.0 && 0.0 / h == 0.0;
  }

  // The eight-nines sentinel of the source's min[1].

  function MinZOf(vs: seq<Vec3>): real
    requires |vs| > 0
    decreases |vs|
  {
    var v := vs[|vs| - 1];
    if |vs| == 1 then v.z
    else var m := MinZOf(vs[..|vs| - 1]); if v.z < m then v.z else m
  }

  /** The scanned `minZ` is the smaller of the start and the least z. */
  lemma {:induction false} FoldMinZ(init: Box, vs: seq<Vec3>)
    requires |vs| > 0
    ensures var m := MinZOf(vs);
      BoundsFrom(init, vs).minZ == (if m < init.minZ then m else init.minZ)
    decreases |vs|
  {
    if |vs| > 1 {
      FoldMinZ(init, vs[..|vs| - 1]);
    }
  }

  /** The other three sides do not depend on where `minZ` starts. */
  lemma {:induction false} FoldOtherSides(b: Box, c: Box, vs: seq<Vec3>)
    requires b.minX == c.minX && b.maxX == c.maxX && b.maxZ == c.maxZ
    ensures var fb := BoundsFrom(b, vs); var fc := BoundsFrom(c, vs);
      fb.minX == fc.minX && fb.maxX == fc.maxX && fb.maxZ == fc.maxZ
    decreases |vs|
  {
    if vs != [] {
      FoldOtherSides(b, c, vs[..|vs| - 1]);
    }
  }

  lemma MinZAttained(vs: seq<Vec3>, i: nat)
    requires i < |vs|
    ensures MinZOf(vs) <= vs[i].z
    decreases |vs|
  {
    if |vs| > 1 && i < |vs| - 1 {
      MinZAttained(vs[..|vs| - 1], i);
    }
  }

  /** As written, the scan agrees with the symmetric one whenever some
      vertex has z at most 99999999. */
  lemma AsWrittenAgrees(vs: seq<Vec3>, i: nat)
    requires i < |vs| && vs[i].z <= 99999999.0
    ensures BoundsAsWritten(vs) == Bounds(vs)
  {
    MinZAttained(vs, i);
    FoldMinZ(EmptyBoxAsWritten, vs);
    FoldMinZ(EmptyBox, vs);
    FoldOtherSides(EmptyBoxAsWritten, EmptyBox, vs);
  }

  lemma BoundsOfOne(init: Box, v: Vec3)
    ensures BoundsFrom(init, [v]) == Include(init, v)
  {
    assert [v][..0] == [];
  }

  /** As written, a mesh lying wholly above z = 99999999 gets a `minZ` that
      is no vertex's z, while the symmetric scan finds the lowest vertex. */
  lemma AsWrittenMissesMinZ()
    ensures var vs := [Vec3(0.0, 0.0, 100000000.0), Vec3(1.0, 0.0, 200000000.0)];
      BoundsAsWritten(vs).minZ == 99999999.0 &&
      vs[0].z != 99999999.0 && vs[1].z != 99999999.0 &&
      Bounds(vs).minZ == 100000000.0
  {
    var vs := [Vec3(0.0, 0.0, 100000000.0), Vec3(1.0, 0.0, 200000000.0)];
    assert vs[..1] == [vs[0]];
    assert [vs[0]][..0] == [];
    var one := BoundsFrom(EmptyBoxAsWritten, [vs[0]]);
    BoundsOfOne(EmptyBoxAsWritten, vs[0]);
    assert one.minZ == 99999999.0;
    assert BoundsAsWritten(vs) == Include(one, vs[1]);
    var fixedOne := BoundsFrom(EmptyBox, [vs[0]]);
    BoundsOfOne(EmptyBox, vs[0]);
    assert fixedOne.minZ == 100000000.0;
    assert Bounds(vs) == Include(fixedOne, vs[1]);
  }
}
