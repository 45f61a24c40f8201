/** Frame geometry built by `read_cheetah_atlas` for one record: six mesh
    vertices (the trimmed quad's four corners, then the untrimmed sprite's
    origin and far corner) and the quad's four UVs. The source computes the
    points in whole pixels and multiplies each by `unitPerPixel`; the model
    does the same, with exact reals for the scaled points and the UVs. */
module Geometry {
  import opened AtlasRecord

  /** A point in whole pixels, in the sprite's x (right), y (depth, always 0)
      and z (up) axes. */
  datatype Pixel = Pixel(x: int, y: int, z: int)

  /** A mesh vertex position in scene units. */
  datatype Vec3 = Vec3(x: real, y: real, z: real)

  /** A texture coordinate: `u` across the image, `v` up from its bottom edge. */
  datatype Uv = Uv(u: real, v: real)

  /** The six vertices in pixels: the quad clockwise from its top-left corner,
      then (0, 0, 0) and (origW, 0, origH). A rotated frame's rectangle is
      stored turned, so its quad is `height` wide and `width` tall. */
  function PixelVerts(r: FrameRecord): (ps: seq<Pixel>)
    ensures |ps| == 6
  {
    if !r.rotated then
      [Pixel(r.xOffset, 0, r.origH - r.yOffset),
       Pixel(r.xOffset + r.width, 0, r.origH - r.yOffset),
       Pixel(r.xOffset + r.width, 0, r.origH - r.yOffset - r.height),
       Pixel(r.xOffset, 0, r.origH - r.yOffset - r.height),
       Pixel(0, 0, 0),
       Pixel(r.origW, 0, r.origH)]
    else
      [Pixel(r.yOffset, 0, r.origH - r.xOffset),
       Pixel(r.yOffset + r.height, 0, r.origH - r.xOffset),
       Pixel(r.yOffset + r.height, 0, r.origH - r.xOffset - r.width),
       Pixel(r.yOffset, 0, r.origH - r.xOffset - r.width),
       Pixel(0, 0, 0),
       Pixel(r.origW, 0, r.origH)]
  }

  /** `Vector(p) * unitPerPixel`. */
  function Scale(p: Pixel, unitPerPixel: real): Vec3 {
    Vec3(p.x as real * unitPerPixel, p.y as real * unitPerPixel, p.z as real * unitPerPixel)
  }

  /** The mesh vertices of a frame in scene units. */
  function FrameVerts(r: FrameRecord, unitPerPixel: real): (vs: seq<Vec3>)
    ensures |vs| == 6
    ensures forall i :: 0 <= i < 6 ==> vs[i] == Scale(PixelVerts(r)[i], unitPerPixel)
  {
    var ps := PixelVerts(r);
    [Scale(ps[0], unitPerPixel), Scale(ps[1], unitPerPixel), Scale(ps[2], unitPerPixel),
     Scale(ps[3], unitPerPixel), Scale(ps[4], unitPerPixel), Scale(ps[5], unitPerPixel)]
  }

  /** The quad's UVs, one per corner in the order of `PixelVerts`. A division
      by a zero image side raises in the source; callers check it first. */
  function FrameUvs(r: FrameRecord, imgW: int, imgH: int): (uvs: seq<Uv>)
    requires imgW != 0 && imgH != 0
    ensures |uvs| == 4
  {
    var left := r.xPos as real / imgW as real;
    var right := (r.xPos + r.width) as real / imgW as real;
    var top := (imgH - r.yPos) as real / imgH as real;
    var bottom := (imgH - r.yPos - r.height) as real / imgH as real;
    if !r.rotated then
      [Uv(left, top), Uv(right, top), Uv(right, bottom), Uv(left, bottom)]
    else
      [Uv(right, top), Uv(right, bottom), Uv(left, bottom), Uv(left, top)]
  }

  /** The quad is an axis-aligned rectangle in the y = 0 plane, listed
      clockwise from its top-left corner, `width` by `height` pixels, or
      `height` by `width` when the frame is rotated. */
  lemma QuadIsRectangle(r: FrameRecord)
    ensures var ps := PixelVerts(r);
      var w := if r.rotated then r.height else r.width;
      var h := if r.rotated then r.width else r.height;
      (forall i :: 0 <= i < 6 ==> ps[i].y == 0) &&
      ps[0].z == ps[1].z && ps[2].z == ps[3].z && ps[0].x == ps[3].x && ps[1].x == ps[2].x &&
      ps[1].x - ps[0].x == w && ps[0].z - ps[3].z == h
  {
  }

  /** A rotated frame is laid out like an unrotated one whose offsets and
      sizes are transposed. */
  lemma RotatedIsTransposed(r: FrameRecord)
    ensures PixelVerts(r.(rotated := true)) ==
      PixelVerts(r.(rotated := false, xOffset := r.yOffset, yOffset := r.xOffset,
                    width := r.height, height := r.width))
  {
  }

  /** The two extra points do not depend on the rotation flag: the origin
      and the untrimmed sprite's far corner. */
  lemma AuxPointsFixed(r: FrameRecord)
    ensures PixelVerts(r)[4] == Pixel(0, 0, 0)
    ensures PixelVerts(r)[5] == Pixel(r.origW, 0, r.origH)
    ensures PixelVerts(r)[4..] == PixelVerts(r.(rotated := !r.rotated))[4..]
  {
  }

  lemma ScaleDifference(a: int, b: int, u: real)
    ensures a as real * u - b as real * u == (a - b) as real * u
  {
  }

  /** Scaled by `unitPerPixel`, the quad is `width * unitPerPixel` by
      `height * unitPerPixel` (swapped when rotated), still in the y = 0 plane. */
  lemma QuadSize(r: FrameRecord, unitPerPixel: real)
    ensures var vs := FrameVerts(r, unitPerPixel);
      var w := if r.rotated then r.height else r.width;
      var h := if r.rotated then r.width else r.height;
      (forall i :: 0 <= i < 6 ==> vs[i].y == 0.0) &&
      vs[1].x - vs[0].x == w as real * unitPerPixel &&
      vs[0].z - vs[3].z == h as real * unitPerPixel
  {
    var ps := PixelVerts(r);
    var vs := FrameVerts(r, unitPerPixel);
    QuadIsRectangle(r);
    forall i | 0 <= i < 6
      ensures vs[i].y == 0.0
    {
      assert vs[i] == Scale(ps[i], unitPerPixel);
    }
    assert vs[0] == Scale(ps[0], unitPerPixel) && vs[1] == Scale(ps[1], unitPerPixel);
    assert vs[3] == Scale(ps[3], unitPerPixel);
    ScaleDifference(ps[1].x, ps[0].x, unitPerPixel);
    ScaleDifference(ps[0].z, ps[3].z, unitPerPixel);
  }

  /** The rotated UV list is the unrotated one read from the next corner on. */
  lemma RotatedUvsShifted(r: FrameRecord, imgW: int, imgH: int)
    requires imgW != 0 && imgH != 0
    ensures var plain := FrameUvs(r.(rotated := false), imgW, imgH);
      var turned := FrameUvs(r.(rotated := true), imgW, imgH);
      forall i :: 0 <= i < 4 ==> turned[i] == plain[(i + 1) % 4]
  {
  }

  lemma FractionInUnit(a: int, b: int)
    requires 0 <= a <= b && b > 0
    ensures 0.0 <= a as real / b as real <= 1.0
  {
    assert a as real / b as real * b as real == a as real;
  }

  predicate UnitUv(t: Uv) { 0.0 <= t.u <= 1.0 && 0.0 <= t.v <= 1.0 }

  /** A frame lying inside the image gets UVs inside the unit square. */
  lemma UvsInUnitSquare(r: FrameRecord, imgW: int, imgH: int)
    requires imgW > 0 && imgH > 0
    requires 0 <= r.width && 0 <= r.height
    requires 0 <= r.xPos && r.xPos + r.width <= imgW
    requires 0 <= r.yPos && r.yPos + r.height <= imgH
    ensures forall i :: 0 <= i < 4 ==> UnitUv(FrameUvs(r, imgW, imgH)[i])
  {
    FractionInUnit(r.xPos, imgW);
    FractionInUnit(r.xPos + r.width, imgW);
    FractionInUnit(imgH - r.yPos, imgH);
    FractionInUnit(imgH - r.yPos - r.height, imgH);
  }

  /** The image pixel a UV points at: column from the left edge, row from
      the top edge. */
  function Column(t: Uv, imgW: int): real { t.u * imgW as real }
  function Row(t: Uv, imgH: int): real { imgH as real - t.v * imgH as real }

  lemma Undivide(a: int, b: int)
    requires b != 0
    ensures a as real / b as real * b as real == a as real
  {
  }

  /** Every quad corner is textured from the image pixel that lies at the
      same place in the packed rectangle: an unrotated frame maps its
      (x, down-from-top) offsets straight to (column, row); a rotated one
      maps x to rows and z to columns, a quarter turn. */
  lemma TextureFollowsCorners(r: FrameRecord, imgW: int, imgH: int)
    requires imgW != 0 && imgH != 0
    ensures var ps := PixelVerts(r);
      var uvs := FrameUvs(r, imgW, imgH);
      forall i :: 0 <= i < 4 ==>
        if !r.rotated then
          Column(uvs[i], imgW) == (r.xPos + ps[i].x - r.xOffset) as real &&
          Row(uvs[i], imgH) == (r.yPos + (r.origH - r.yOffset - ps[i].z)) as real
        else
          Column(uvs[i], imgW) == (r.xPos + r.width - (r.origH - r.xOffset - ps[i].z)) as real &&
          Row(uvs[i], imgH) == (r.yPos + ps[i].x - r.yOffset) as real
  {
    Undivide(r.xPos, imgW);
    Undivide(r.xPos + r.width, imgW);
    Undivide(imgH - r.yPos, imgH);
    Undivide(imgH - r.yPos - r.height, imgH);
  }
}
