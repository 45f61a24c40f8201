/** The import loop of `read_cheetah_atlas`: skip an atlas already imported
    from the same path, add a holder for the new atlas, then build one mesh
    object per frame line, each placed on top of the previous one. Reading
    the file and the image, materials, textures and layers are not part of
    the model: the lines, the image size and the atlas name are inputs. */
module Importer {
  import opened Wrappers
  import opened AtlasRecord
  import opened Geometry
  import opened Scene

  /** A malformed line, or a division by zero (`pixel_per_unit` or an image
      side equal to zero), reached at the first frame line. */
  datatype ImportError = LineError(error: ParseError) | DivisionByZero

  /** The frames the loop builds before it stops, and why it stopped. */
  datatype Plan = Plan(frames: seq<FrameRecord>, error: Option<ImportError>)

  datatype ImportStatus = AlreadyImported | Imported(holder: AtlasHolder, error: Option<ImportError>)

  /** One pass of the loop body: a header line is skipped, a malformed line
      or a zero divisor ends the import, a frame line adds a frame. */
  function PlanStep(prev: Plan, line: string, pixelPerUnit: real, imgW: int, imgH: int): Plan
  {
    if prev.error.Some? then prev
    else match ParseLine(line)
      case Header => prev
      case Malformed(e) => Plan(prev.frames, Some(LineError(e)))
      case Frame(rec) =>
        if pixelPerUnit == 0.0 || imgW == 0 || imgH == 0 then Plan(prev.frames, Some(DivisionByZero))
        else Plan(prev.frames + [rec], None)
  }

  /** The loop over `lines`, the first failure ending the import. */
  function PlanOf(lines: seq<string>, pixelPerUnit: real, imgW: int, imgH: int): Plan
    decreases |lines|
  {
    if lines == [] then Plan([], None)
    else PlanStep(PlanOf(lines[..|lines| - 1], pixelPerUnit, imgW, imgH), lines[|lines| - 1], pixelPerUnit, imgW, imgH)
  }

  /** `bound_box[6][2]`: the highest z of a mesh. */
  function TopZ(vs: seq<Vec3>): real
    requires |vs| > 0
    decreases |vs|
  {
    var last := vs[|vs| - 1].z;
    if |vs| == 1 then last
    else
      var t := TopZ(vs[..|vs| - 1]);
      if last > t then last else t
  }

  /** The top is the largest z of the mesh: no vertex is above it and some
      vertex is at it. */
  lemma {:induction false} TopZIsMax(vs: seq<Vec3>)
    requires |vs| > 0
    ensures forall i :: 0 <= i < |vs| ==> vs[i].z <= TopZ(vs)
    ensures exists i :: 0 <= i < |vs| && vs[i].z == TopZ(vs)
    decreases |vs|
  {
    if |vs| > 1 {
      var init := vs[..|vs| - 1];
      TopZIsMax(init);
      assert forall i :: 0 <= i < |init| ==> init[i] == vs[i];
      var j :| 0 <= j < |init| && init[j].z == TopZ(init);
      if vs[|vs| - 1].z <= TopZ(init) {
        assert vs[j].z == TopZ(vs);
      } else {
        assert vs[|vs| - 1].z == TopZ(vs);
      }
    } else {
      assert vs[0].z == TopZ(vs);
    }
  }

  /** The mesh a frame line becomes: its name, vertices and UVs. */
  datatype Shape = Shape(name: string, verts: seq<Vec3>, uvs: seq<Uv>)

  function ShapeOf(rec: FrameRecord, unitPerPixel: real, imgW: int, imgH: int): Shape
    requires imgW != 0 && imgH != 0
  {
    Shape(rec.name, FrameVerts(rec, unitPerPixel), FrameUvs(rec, imgW, imgH))
  }

  function Shapes(recs: seq<FrameRecord>, pixelPerUnit: real, imgW: int, imgH: int): (shapes: seq<Shape>)
    requires pixelPerUnit != 0.0 && imgW != 0 && imgH != 0
    ensures |shapes| == |recs|
    ensures forall k :: 0 <= k < |recs| ==> shapes[k] == ShapeOf(recs[k], 1.0 / pixelPerUnit, imgW, imgH)
  {
    seq(|recs|, k requires 0 <= k < |recs| => ShapeOf(recs[k], 1.0 / pixelPerUnit, imgW, imgH))
  }

  function Tops(shapes: seq<Shape>): (tops: seq<real>)
    requires forall k :: 0 <= k < |shapes| ==> |shapes[k].verts| > 0
    ensures |tops| == |shapes|
    ensures forall k :: 0 <= k < |shapes| ==> tops[k] == TopZ(shapes[k].verts)
  {
    seq(|shapes|, k requires 0 <= k < |shapes| => TopZ(shapes[k].verts))
  }

  /** Where the k-th frame is placed: each frame at the previous frame's z
      plus the previous frame's top. */
  function StackZ(tops: seq<real>, k: nat): real
    requires k <= |tops|
  {
    if k == 0 then 0.0 else StackZ(tops, k - 1) + tops[k - 1]
  }

  /** Every frame mesh holds the origin, so its top is never below zero, and
      holds the untrimmed far corner, so its top is at least `origH` units. */
  lemma FrameTop(rec: FrameRecord, unitPerPixel: real)
    ensures TopZ(FrameVerts(rec, unitPerPixel)) >= 0.0
    ensures TopZ(FrameVerts(rec, unitPerPixel)) >= rec.origH as real * unitPerPixel
  {
    var vs := FrameVerts(rec, unitPerPixel);
    TopZIsMax(vs);
    assert vs[4].z == 0.0 && vs[5].z == rec.origH as real * unitPerPixel;
  }

  /** With tops never below zero, later frames are never placed lower. */
  lemma {:induction false} StackRises(tops: seq<real>, j: nat, k: nat)
    requires j <= k <= |tops|
    requires forall i :: 0 <= i < |tops| ==> tops[i] >= 0.0
    ensures StackZ(tops, j) <= StackZ(tops, k)
    decreases k - j
  {
    if j < k {
      StackRises(tops, j, k - 1);
    }
  }

  /** Frames built from records are stacked upward in the order of the
      lines. */
  lemma ImportedFramesRise(recs: seq<FrameRecord>, pixelPerUnit: real, imgW: int, imgH: int, j: nat, k: nat)
    requires pixelPerUnit != 0.0 && imgW != 0 && imgH != 0
    requires j <= k <= |recs|
    ensures StackZ(Tops(Shapes(recs, pixelPerUnit, imgW, imgH)), j)
         <= StackZ(Tops(Shapes(recs, pixelPerUnit, imgW, imgH)), k)
  {
    var tops := Tops(Shapes(recs, pixelPerUnit, imgW, imgH));
    forall i | 0 <= i < |tops| ensures tops[i] >= 0.0 {
      FrameTop(recs[i], 1.0 / pixelPerUnit);
    }
    StackRises(tops, j, k);
  }

  /** Once a line fails, no later line is read: the plan of any longer list
      of lines is the same. */
  lemma {:induction false} PlanStopsAtError(lines: seq<string>, more: seq<string>, pixelPerUnit: real, imgW: int, imgH: int)
    requires PlanOf(lines, pixelPerUnit, imgW, imgH).error.Some?
    ensures PlanOf(lines + more, pixelPerUnit, imgW, imgH) == PlanOf(lines, pixelPerUnit, imgW, imgH)
    decreases |more|
  {
    if more != [] {
      var init := more[..|more| - 1];
      PlanStopsAtError(lines, init, pixelPerUnit, imgW, imgH);
      var whole := lines + more;
      assert whole[..|whole| - 1] == lines + init;
      assert PlanOf(whole, pixelPerUnit, imgW, imgH)
          == PlanStep(PlanOf(lines + init, pixelPerUnit, imgW, imgH), whole[|whole| - 1], pixelPerUnit, imgW, imgH);
    } else {
      assert lines + more == lines;
    }
  }

  function FrameLineCount(lines: seq<string>): nat
    decreases |lines|
  {
    if lines == [] then 0
    else FrameLineCount(lines[..|lines| - 1]) + (if HeaderTag <= lines[|lines| - 1] then 0 else 1)
  }

  /** With nonzero divisors and every line a header or a well-formed frame,
      the import succeeds with one frame per non-header line. */
  lemma {:induction false} PlanCountsFrames(lines: seq<string>, pixelPerUnit: real, imgW: int, imgH: int)
    requires pixelPerUnit != 0.0 && imgW != 0 && imgH != 0
    requires forall i :: 0 <= i < |lines| ==> !ParseLine(lines[i]).Malformed?
    ensures PlanOf(lines, pixelPerUnit, imgW, imgH).error == None
    ensures |PlanOf(lines, pixelPerUnit, imgW, imgH).frames| == FrameLineCount(lines)
    decreases |lines|
  {
    if lines != [] {
      var init := lines[..|lines| - 1];
      assert forall i :: 0 <= i < |init| ==> init[i] == lines[i];
      PlanCountsFrames(init, pixelPerUnit, imgW, imgH);
      assert !ParseLine(lines[|lines| - 1]).Malformed?;
    }
  }

  /** A frame object as the loop builds it from a shape, before it is
      placed. */
  ghost predicate Built(ob: MeshObject, shape: Shape, atlasName: string)
    reads ob, ob.verts, ob.uvs
  {
    ob.name == shape.name && ob.parentName == atlasName &&
    ob.verts[..] == shape.verts && ob.uvs[..] == shape.uvs
  }

  /** The holder's children are built from `shapes` in order, the first at
      z = 0 and each other one on top of the one before. */
  ghost predicate Stacked(obs: seq<MeshObject>, shapes: seq<Shape>, atlasName: string)
    reads obs, set ob | ob in obs :: ob.verts, set ob | ob in obs :: ob.uvs
  {
    |obs| == |shapes| &&
    (forall k :: 0 <= k < |obs| ==> Built(obs[k], shapes[k], atlasName) && obs[k].verts.Length > 0) &&
    (|obs| > 0 ==> obs[0].z == 0.0) &&
    forall k :: 0 < k < |obs| ==> obs[k].z == obs[k - 1].z + TopZ(obs[k - 1].verts[..])
  }

  /** The already-imported check: is some atlas's `path` this file? */
  method HasPath(holders: seq<AtlasHolder>, filepath: string) returns (found: bool)
    ensures found <==> exists i :: 0 <= i < |holders| && holders[i].path == filepath
  {
    var i := 0;
    while i < |holders|
      invariant 0 <= i <= |holders|
      invariant forall k :: 0 <= k < i ==> holders[k].path != filepath
    {
      if holders[i].path == filepath {
        return true;
      }
      i := i + 1;
    }
    return false;
  }

  /** `prevOb.bound_box[6][2]` read off the mesh. */
  method TopOfMesh(ob: MeshObject) returns (t: real)
    requires ob.verts.Length > 0
    ensures t == TopZ(ob.verts[..])
  {
    t := ob.verts[0].z;
    var i := 1;
    while i < ob.verts.Length
      invariant 1 <= i <= ob.verts.Length
      invariant t == TopZ(ob.verts[..i])
    {
      assert ob.verts[..i + 1][..i] == ob.verts[..i];
      if ob.verts[i].z > t {
        t := ob.verts[i].z;
      }
      i := i + 1;
    }
    assert ob.verts[..i] == ob.verts[..];
  }

  /** The prefix of the tops gives the same placements. */
  lemma {:induction false} StackZPrefix(tops: seq<real>, n: nat)
    requires n <= |tops|
    ensures forall k :: 0 <= k <= n ==> StackZ(tops[..n], k) == StackZ(tops, k)
    decreases n
  {
    if n > 0 {
      StackZPrefix(tops, n - 1);
      assert tops[..n][..n - 1] == tops[..n - 1];
      StackZPrefix(tops[..n], n - 1);
    }
  }

  /** The stacked objects stand exactly where the prefix sums of the mesh
      tops put them. */
  lemma {:induction false} StackedPlacement(obs: seq<MeshObject>, shapes: seq<Shape>, atlasName: string, k: nat)
    requires Stacked(obs, shapes, atlasName)
    requires k < |obs|
    ensures forall i :: 0 <= i < |shapes| ==> |shapes[i].verts| > 0
    ensures obs[k].z == StackZ(Tops(shapes), k)
  {
    forall i | 0 <= i < |shapes| ensures |shapes[i].verts| > 0 {
      assert Built(obs[i], shapes[i], atlasName);
    }
    if k > 0 {
      StackedPlacement(obs, shapes, atlasName, k - 1);
      assert Built(obs[k - 1], shapes[k - 1], atlasName);
    }
  }

  /** The imported frames never go down: a later child is never placed
      below an earlier one. */
  lemma StackedRises(obs: seq<MeshObject>, recs: seq<FrameRecord>, atlasName: string,
                     pixelPerUnit: real, imgW: int, imgH: int, j: nat, k: nat)
    requires pixelPerUnit != 0.0 && imgW != 0 && imgH != 0
    requires Stacked(obs, Shapes(recs, pixelPerUnit, imgW, imgH), atlasName)
    requires j <= k < |obs|
    ensures obs[j].z <= obs[k].z
  {
    var shapes := Shapes(recs, pixelPerUnit, imgW, imgH);
    StackedPlacement(obs, shapes, atlasName, j);
    StackedPlacement(obs, shapes, atlasName, k);
    ImportedFramesRise(recs, pixelPerUnit, imgW, imgH, j, k);
  }

  /** Appending the next built object, placed on top of the last one, keeps
      the stack. */
  lemma StackedAppend(obs: seq<MeshObject>, shapes: seq<Shape>, ob: MeshObject, shape: Shape, atlasName: string)
    requires Stacked(obs, shapes, atlasName)
    requires Built(ob, shape, atlasName) && ob.verts.Length > 0
    requires |obs| == 0 ==> ob.z == 0.0
    requires |obs| > 0 ==> ob.z == obs[|obs| - 1].z + TopZ(obs[|obs| - 1].verts[..])
    ensures Stacked(obs + [ob], shapes + [shape], atlasName)
  {
    var all := shapes + [shape];
    var obs' := obs + [ob];
    forall k | 0 <= k < |obs'|
      ensures Built(obs'[k], all[k], atlasName) && obs'[k].verts.Length > 0
    {
      if k < |obs| {
        assert obs'[k] == obs[k] && all[k] == shapes[k];
      }
    }
    forall k | 0 < k < |obs'|
      ensures obs'[k].z == obs'[k - 1].z + TopZ(obs'[k - 1].verts[..])
    {
      assert obs'[k - 1] == obs[k - 1];
      if k < |obs| {
        assert obs'[k] == obs[k];
      }
    }
  }

  /** One frame line: the new object, placed on top of `prevOb` when there
      is one. */
  method NewFrame(rec: FrameRecord, atlasName: string, pixelPerUnit: real, imgW: int, imgH: int,
                  prevOb: MeshObject?) returns (ob: MeshObject)
    requires pixelPerUnit != 0.0 && imgW != 0 && imgH != 0
    requires prevOb != null ==> prevOb.verts.Length > 0
    ensures fresh(ob) && fresh(ob.verts) && fresh(ob.uvs) && ob.verts.Length == 6
    ensures Built(ob, ShapeOf(rec, 1.0 / pixelPerUnit, imgW, imgH), atlasName)
    ensures ob.z == if prevOb == null then 0.0 else prevOb.z + TopZ(prevOb.verts[..])
  {
    var unitPerPixel := 1.0 / pixelPerUnit;
    ob := new MeshObject(rec.name, atlasName, FrameVerts(rec, unitPerPixel), FrameUvs(rec, imgW, imgH));
    if prevOb != null {
      var top := TopOfMesh(prevOb);
      ob.z := top + prevOb.z;
    }
  }

  /** The shapes of the records read so far grow by one per frame line. */
  lemma ShapesAppend(recs: seq<FrameRecord>, rec: FrameRecord, pixelPerUnit: real, imgW: int, imgH: int)
    requires pixelPerUnit != 0.0 && imgW != 0 && imgH != 0
    ensures Shapes(recs + [rec], pixelPerUnit, imgW, imgH)
         == Shapes(recs, pixelPerUnit, imgW, imgH) + [ShapeOf(rec, 1.0 / pixelPerUnit, imgW, imgH)]
  {
    var all := recs + [rec];
    assert forall k :: 0 <= k < |recs| ==> all[k] == recs[k];
  }

  /** The holder's children are the frames of `recs`, built and stacked in
      order (a nonempty import means the divisors were nonzero). */
  ghost predicate Imports(obs: seq<MeshObject>, recs: seq<FrameRecord>, atlasName: string,
                          pixelPerUnit: real, imgW: int, imgH: int)
    reads obs, set ob | ob in obs :: ob.verts, set ob | ob in obs :: ob.uvs
  {
    |obs| == |recs| &&
    (|recs| > 0 ==>
      pixelPerUnit != 0.0 && imgW != 0 && imgH != 0 &&
      Stacked(obs, Shapes(recs, pixelPerUnit, imgW, imgH), atlasName))
  }

  /** Appending the next frame's object, built from its record and placed on
      top of the last object, extends the import by that record. */
  lemma ImportsAppend(obs: seq<MeshObject>, recs: seq<FrameRecord>, ob: MeshObject, rec: FrameRecord,
                      atlasName: string, pixelPerUnit: real, imgW: int, imgH: int)
    requires pixelPerUnit != 0.0 && imgW != 0 && imgH != 0
    requires Imports(obs, recs, atlasName, pixelPerUnit, imgW, imgH)
    requires Built(ob, ShapeOf(rec, 1.0 / pixelPerUnit, imgW, imgH), atlasName) && ob.verts.Length > 0
    requires |obs| == 0 ==> ob.z == 0.0
    requires |obs| > 0 ==> ob.z == obs[|obs| - 1].z + TopZ(obs[|obs| - 1].verts[..])
    ensures Imports(obs + [ob], recs + [rec], atlasName, pixelPerUnit, imgW, imgH)
  {
    StackedAppend(obs, Shapes(recs, pixelPerUnit, imgW, imgH), ob,
                  ShapeOf(rec, 1.0 / pixelPerUnit, imgW, imgH), atlasName);
    ShapesAppend(recs, rec, pixelPerUnit, imgW, imgH);
  }

  /** The frame-line branch of the loop: build the frame, place it on top of
      `prevOb` and make it the holder's next child. */
  method AddFrame(holder: AtlasHolder, prevOb: MeshObject?, rec: FrameRecord, atlasName: string,
                  pixelPerUnit: real, imgW: int, imgH: int, ghost recs: seq<FrameRecord>)
    returns (ob: MeshObject)
    requires pixelPerUnit != 0.0 && imgW != 0 && imgH != 0
    requires Imports(holder.frames, recs, atlasName, pixelPerUnit, imgW, imgH)
    requires (prevOb == null) == (recs == [])
    requires prevOb != null ==> prevOb == holder.frames[|recs| - 1]
    modifies holder`frames
    ensures holder.frames == old(holder.frames) + [ob]
    ensures Imports(holder.frames, recs + [rec], atlasName, pixelPerUnit, imgW, imgH)
  {
    var obs := holder.frames;
    ob := NewFrame(rec, atlasName, pixelPerUnit, imgW, imgH, prevOb);
    ImportsAppend(obs, recs, ob, rec, atlasName, pixelPerUnit, imgW, imgH);
    holder.frames := obs + [ob];
  }

  /** Reading one more line advances the plan by one step. */
  lemma PlanAdvance(lines: seq<string>, i: nat, pixelPerUnit: real, imgW: int, imgH: int)
    requires i < |lines|
    ensures PlanOf(lines[..i + 1], pixelPerUnit, imgW, imgH)
         == PlanStep(PlanOf(lines[..i], pixelPerUnit, imgW, imgH), lines[i], pixelPerUnit, imgW, imgH)
  {
    assert lines[..i + 1][..i] == lines[..i];
  }

  /** A failure at line `i` is the outcome of the whole import. */
  lemma PlanEndsAt(lines: seq<string>, i: nat, pixelPerUnit: real, imgW: int, imgH: int)
    requires i < |lines|
    requires PlanOf(lines[..i + 1], pixelPerUnit, imgW, imgH).error.Some?
    ensures PlanOf(lines, pixelPerUnit, imgW, imgH) == PlanOf(lines[..i + 1], pixelPerUnit, imgW, imgH)
  {
    PlanStopsAtError(lines[..i + 1], lines[i + 1..], pixelPerUnit, imgW, imgH);
    assert lines[..i + 1] + lines[i + 1..] == lines;
  }

  /** The frame loop of `read_cheetah_atlas`, carrying `prevOb` from one
      frame line to the next. */
  method ImportFrames(holder: AtlasHolder, atlasName: string, lines: seq<string>,
                      pixelPerUnit: real, imgW: int, imgH: int)
    returns (error: Option<ImportError>)
    requires holder.frames == []
    modifies holder`frames
    ensures error == PlanOf(lines, pixelPerUnit, imgW, imgH).error
    ensures Imports(holder.frames, PlanOf(lines, pixelPerUnit, imgW, imgH).frames, atlasName, pixelPerUnit, imgW, imgH)
  {
    var prevOb: MeshObject? := null;
    ghost var recs: seq<FrameRecord> := [];
    var i := 0;
    while i < |lines|
      invariant 0 <= i <= |lines|
      invariant PlanOf(lines[..i], pixelPerUnit, imgW, imgH) == Plan(recs, None)
      invariant Imports(holder.frames, recs, atlasName, pixelPerUnit, imgW, imgH)
      invariant |holder.frames| == |recs|
      invariant (prevOb == null) == (recs == [])
      invariant prevOb != null ==> prevOb == holder.frames[|recs| - 1]
    {
      PlanAdvance(lines, i, pixelPerUnit, imgW, imgH);
      match ParseLine(lines[i]) {
        case Header =>
        case Malformed(e) =>
          PlanEndsAt(lines, i, pixelPerUnit, imgW, imgH);
          assert PlanOf(lines, pixelPerUnit, imgW, imgH).frames == recs;
          return Some(LineError(e));
        case Frame(rec) =>
          if pixelPerUnit == 0.0 || imgW == 0 || imgH == 0 {
            PlanEndsAt(lines, i, pixelPerUnit, imgW, imgH);
            assert PlanOf(lines, pixelPerUnit, imgW, imgH).frames == recs;
            return Some(DivisionByZero);
          }
          prevOb := AddFrame(holder, prevOb, rec, atlasName, pixelPerUnit, imgW, imgH, recs);
          recs := recs + [rec];
      }
      i := i + 1;
    }
    assert lines[..i] == lines;
    assert PlanOf(lines, pixelPerUnit, imgW, imgH) == Plan(recs, None);
    return None;
  }

  /** `read_cheetah_atlas` from the already-imported check to the end of the
      frame loop. The new holder stays in the scene with the frames built so
      far when a line fails. */
  method ImportAtlas(root: AtlasesHolder, filepath: string, atlasName: string, lines: seq<string>,
                     pixelPerUnit: real, imgW: int, imgH: int)
    returns (status: ImportStatus)
    modifies root
    ensures (exists i :: 0 <= i < |old(root.holders)| && old(root.holders)[i].path == filepath) ==>
      status == AlreadyImported && root.holders == old(root.holders)
    ensures !(exists i :: 0 <= i < |old(root.holders)| && old(root.holders)[i].path == filepath) ==>
      status.Imported? && fresh(status.holder) &&
      root.holders == old(root.holders) + [status.holder] &&
      status.holder.path == filepath && status.holder.name == atlasName &&
      status.error == PlanOf(lines, pixelPerUnit, imgW, imgH).error &&
      Imports(status.holder.frames, PlanOf(lines, pixelPerUnit, imgW, imgH).frames,
              atlasName, pixelPerUnit, imgW, imgH)
  {
    var found := HasPath(root.holders, filepath);
    if found {
      return AlreadyImported;
    }
    var holder := new AtlasHolder(filepath, atlasName);
    root.holders := root.holders + [holder];
    var error := ImportFrames(holder, atlasName, lines, pixelPerUnit, imgW, imgH);
    return Imported(holder, error);
  }
}
