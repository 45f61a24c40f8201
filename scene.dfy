/** The scene objects the importer works on: frame and sprite meshes, the
    per-atlas holder objects and the "atlases" object above them, with the
    anchor-point operations on a mesh (`getAnchorPointBounds`,
    `getAnchorPointActual`, `setAnchorPoint`, `persistAnchorPoint`,
    `getAnchorPointStored`, `restoreAnchorPoint`) and the frame swap
    (`setSpriteFrame`, `setSpriteFrameById`, `getFrameIdOfFrameObject`). */
module Scene {
  import opened Wrappers
  import opened Text
  import opened Geometry
  import opened Anchor

  const IdSeparator: char := '|'

  /** A sprite id: the atlas name and the frame name joined by `|`. */
  function FrameIdText(atlasName: string, frameName: string): (id: string)
    ensures IdSeparator !in atlasName && IdSeparator !in frameName ==>
      Split(id, IdSeparator) == [atlasName, frameName]
  {
    var id := atlasName + [IdSeparator] + frameName;
    if IdSeparator !in atlasName && IdSeparator !in frameName then
      SplitPair(atlasName, IdSeparator, frameName);
      id
    else id
  }

  /** What `getAnchorPointStored` finds: nothing, the stored pair, or a
      first key without the second (a `KeyError` in the source). */
  datatype StoredAnchor = NotStored | Stored(anchor: Point2) | SecondKeyMissing

  /** Why a frame swap stops: no atlas at all (`atlas` never bound), an
      atlas without frames (`src` left `None`), an id without `|`, a
      destination with fewer vertices or more UVs than the source (index
      errors), or a stored anchor missing its second key. */
  datatype SwapError = NoAtlas | NoFrames | BadId | TooFewVertices | TooFewUvs | AnchorKeyMissing

  /** `dst` with its first elements overwritten by `src`, as far as both reach. */
  function Overwrite<T>(dst: seq<T>, src: seq<T>): (r: seq<T>)
    ensures |r| == |dst|
    ensures forall i :: 0 <= i < |dst| ==> r[i] == (if i < |src| then src[i] else dst[i])
  {
    if |src| <= |dst| then src + dst[|src|..] else src[..|dst|]
  }

  /** The mesh of `restoreAnchorPoint`: moved by the stored anchor if one is
      stored, untouched otherwise. */
  function AfterRestore(vs: seq<Vec3>, stored: StoredAnchor): seq<Vec3> {
    match stored
    case Stored(p) => Shifted(vs, Translation(Bounds(vs), p))
    case _ => vs
  }

  /** What a swap reads and writes of a mesh, as a value: its vertices, its
      UVs, the id it shows and its stored anchor. */
  datatype MeshState = MeshState(verts: seq<Vec3>, uvs: seq<Uv>, sprite: Option<string>,
                                 stored: StoredAnchor)

  /** What a swap reads of a frame: its name, vertices, UVs and id. */
  datatype FrameData = FrameData(name: string, verts: seq<Vec3>, uvs: seq<Uv>, id: string)

  /** An imported atlas as a value: its name and its frames in order. */
  datatype AtlasData = AtlasData(name: string, frames: seq<FrameData>)

  /** A mesh object: a frame under an atlas holder, or a sprite showing one. */
  class MeshObject {
    var name: string            // ob['name']
    var parentName: string      // ob.parent['name']
    const verts: array<Vec3>    // the mesh's vertex positions
    const uvs: array<Uv>        // the quad's UVs, one per face corner
    var z: real                 // ob.location[2]
    var sprite: Option<string>  // ob['sprite']
    var anchor0: Option<real>   // ob['_anchorPoint0']
    var anchor1: Option<real>   // ob['_anchorPoint1']

    constructor (name: string, parentName: string, vs: seq<Vec3>, us: seq<Uv>)
      ensures this.name == name && this.parentName == parentName
      ensures fresh(verts) && fresh(uvs) && verts[..] == vs && uvs[..] == us
      ensures z == 0.0 && sprite == None && anchor0 == None && anchor1 == None
    {
      this.name := name;
      this.parentName := parentName;
      verts := new Vec3[|vs|](i requires 0 <= i < |vs| => vs[i]);
      uvs := new Uv[|us|](i requires 0 <= i < |us| => us[i]);
      z := 0.0;
      sprite := None;
      anchor0 := None;
      anchor1 := None;
    }

    function State(): MeshState
      reads this, verts, uvs
    {
      MeshState(verts[..], uvs[..], sprite, StoredAnchor())
    }

    function Data(): FrameData
      reads this, verts, uvs
    {
      FrameData(name, verts[..], uvs[..], FrameId())
    }

    /** `getFrameIdOfFrameObject`. */
    function FrameId(): (id: string)
      reads this
      ensures IdSeparator !in parentName && IdSeparator !in name ==>
        Split(id, IdSeparator) == [parentName, name]
    {
      FrameIdText(parentName, name)
    }

    /** `getAnchorPointBounds`: one scan over the vertices. */
    method GetBounds() returns (b: Box)
      ensures b == Bounds(verts[..])
    {
      var minX, minZ, maxX, maxZ := Sentinel, Sentinel, -Sentinel, -Sentinel;
      var i := 0;
      while i < verts.Length
        invariant 0 <= i <= verts.Length
        invariant Box(minX, minZ, maxX, maxZ) == Bounds(verts[..i])
      {
        var v := verts[i];
        if v.x > maxX { maxX := v.x; }
        if v.z > maxZ { maxZ := v.z; }
        if v.x < minX { minX := v.x; }
        if v.z < minZ { minZ := v.z; }
        assert verts[..i + 1][..i] == verts[..i];
        i := i + 1;
      }
      assert verts[..i] == verts[..];
      b := Box(minX, minZ, maxX, maxZ);
    }

    /** `getAnchorPointActual`; `None` where the source divides by zero. */
    method GetAnchorPointActual() returns (a: Option<Point2>)
      ensures a == Actual(Bounds(verts[..]))
    {
      var b := GetBounds();
      if b.maxX - b.minX == 0.0 || b.maxZ - b.minZ == 0.0 {
        a := None;
      } else {
        a := Some(Point2(-(b.minX / (b.maxX - b.minX)), -(b.minZ / (b.maxZ - b.minZ))));
      }
    }

    /** `setAnchorPoint`: one translation, computed from the current bounds,
        added to every vertex in place. */
    method SetAnchorPoint(p: Point2)
      modifies verts
      ensures verts[..] == Shifted(old(verts[..]), Translation(Bounds(old(verts[..])), p))
      ensures verts.Length > 0 && InRange(old(verts[..])) && InRange(verts[..]) ==>
        Bounds(verts[..]) == ShiftBox(Bounds(old(verts[..])), Translation(Bounds(old(verts[..])), p))
      ensures verts.Length > 0 && InRange(old(verts[..])) && InRange(verts[..]) &&
              Actual(Bounds(old(verts[..]))).Some? ==>
        Actual(Bounds(verts[..])) == Some(p)
    {
      var b := GetBounds();
      var t := Translation(b, p);
      var i := 0;
      while i < verts.Length
        invariant 0 <= i <= verts.Length
        invariant forall k :: 0 <= k < i ==>
          verts[k] == Vec3(old(verts[k]).x + t.x, old(verts[k]).y, old(verts[k]).z + t.z)
        invariant forall k :: i <= k < verts.Length ==> verts[k] == old(verts[k])
      {
        verts[i] := Vec3(verts[i].x + t.x, verts[i].y, verts[i].z + t.z);
        i := i + 1;
      }
      if verts.Length > 0 && InRange(old(verts[..])) && InRange(verts[..]) {
        BoundsShift(old(verts[..]), t);
        if Actual(Bounds(old(verts[..]))).Some? {
          SetAnchorThenActual(old(verts[..]), p);
        }
      }
    }

    /** `persistAnchorPoint`: both keys written. */
    method PersistAnchorPoint(p: Point2)
      modifies this`anchor0, this`anchor1
      ensures anchor0 == Some(p.x) && anchor1 == Some(p.z)
      ensures StoredAnchor() == Stored(p)
    {
      anchor0 := Some(p.x);
      anchor1 := Some(p.z);
    }

    /** `getAnchorPointStored`: presence is decided by the first key alone. */
    function StoredAnchor(): (s: StoredAnchor)
      reads this
      ensures s.NotStored? <==> anchor0.None?
      ensures s.Stored? <==> anchor0.Some? && anchor1.Some?
      ensures s.Stored? ==> s.anchor == Point2(anchor0.value, anchor1.value)
    {
      if anchor0.None? then NotStored
      else if anchor1.None? then SecondKeyMissing
      else Stored(Point2(anchor0.value, anchor1.value))
    }

    /** `restoreAnchorPoint`: re-applies the stored anchor to the current
        mesh; `false` where the second key is missing. */
    method RestoreAnchorPoint() returns (ok: bool)
      modifies verts
      ensures ok <==> !StoredAnchor().SecondKeyMissing?
      ensures verts[..] == AfterRestore(old(verts[..]), StoredAnchor())
    {
      var stored := StoredAnchor();
      ok := !stored.SecondKeyMissing?;
      if stored.Stored? {
        SetAnchorPoint(stored.anchor);
      }
    }

    /** The set-anchor operator's `execute`: the mesh moved so that `p` is
        its anchor, then `p` stored. Restoring right afterwards moves
        nothing. */
    method ApplyAnchorPoint(p: Point2)
      modifies verts, this`anchor0, this`anchor1
      ensures verts[..] == Shifted(old(verts[..]), Translation(Bounds(old(verts[..])), p))
      ensures StoredAnchor() == Stored(p)
      ensures verts.Length > 0 && InRange(old(verts[..])) && InRange(verts[..]) &&
              Actual(Bounds(old(verts[..]))).Some? ==>
        Actual(Bounds(verts[..])) == Some(p) && AfterRestore(verts[..], StoredAnchor()) == verts[..]
    {
      SetAnchorPoint(p);
      PersistAnchorPoint(p);
      if verts.Length > 0 && InRange(old(verts[..])) && InRange(verts[..]) &&
         Actual(Bounds(old(verts[..]))).Some? {
        SetAnchorThenActual(old(verts[..]), p);
        NoShift(verts[..]);
      }
    }

    /** The set-anchor operator's `invoke`: `execute` with the stored
        anchor when there is one, otherwise with the mesh's current anchor.
        `false` where the source raises instead: a stored first key without
        the second, or a mesh of zero width or height. */
    method InvokeSetAnchorPoint() returns (ok: bool)
      modifies verts, this`anchor0, this`anchor1
      ensures ok <==> old(StoredAnchor()).Stored? ||
                      (old(StoredAnchor()).NotStored? && Actual(Bounds(old(verts[..]))).Some?)
      ensures !ok ==> verts[..] == old(verts[..]) && StoredAnchor() == old(StoredAnchor())
      ensures ok && old(StoredAnchor()).Stored? ==>
        verts[..] == AfterRestore(old(verts[..]), old(StoredAnchor())) &&
        StoredAnchor() == old(StoredAnchor())
      ensures ok && old(StoredAnchor()).NotStored? ==>
        verts[..] == old(verts[..]) && StoredAnchor() == Stored(Actual(Bounds(old(verts[..]))).value)
    {
      var stored := StoredAnchor();
      if stored.SecondKeyMissing? {
        return false;
      }
      var p;
      if stored.Stored? {
        p := stored.anchor;
      } else {
        var actual := GetAnchorPointActual();
        if actual.None? {
          return false;
        }
        p := actual.value;
        ActualIsNoOp(Bounds(verts[..]), p);
        NoShift(verts[..]);
      }
      ApplyAnchorPoint(p);
      ok := true;
    }
  }

  /** Moving by nothing leaves the mesh as it is. */
  lemma NoShift(vs: seq<Vec3>)
    ensures Shifted(vs, Point2(0.0, 0.0)) == vs
  {
  }

  /** An imported atlas: the holder object with its frames as children. */
  class AtlasHolder {
    const path: string           // atlasHolder['path']
    var name: string             // atlasHolder['name']
    var frames: seq<MeshObject>  // atlasHolder.children

    constructor (path: string, name: string)
      ensures this.path == path && this.name == name && frames == []
    {
      this.path := path;
      this.name := name;
      frames := [];
    }
  }

  /** The "atlases" object whose children are the imported atlases. */
  class AtlasesHolder {
    var holders: seq<AtlasHolder>

    constructor ()
      ensures holders == []
    {
      holders := [];
    }
  }

  function AtlasNames(holders: seq<AtlasHolder>): (names: seq<string>)
    reads set h | h in holders
    ensures |names| == |holders|
    ensures forall i :: 0 <= i < |holders| ==> names[i] == holders[i].name
  {
    seq(|holders|, i reads set h | h in holders requires 0 <= i < |holders| => holders[i].name)
  }

  function FrameNames(frames: seq<MeshObject>): (names: seq<string>)
    reads set f | f in frames
    ensures |names| == |frames|
    ensures forall i :: 0 <= i < |frames| ==> names[i] == frames[i].name
  {
    seq(|frames|, i reads set f | f in frames requires 0 <= i < |frames| => frames[i].name)
  }

  /** Where a `for x in xs: if x['name'] == key: break` loop leaves `x`: the
      first match, or the last element when nothing matches (Python keeps
      the loop variable), or nothing for an empty list. */
  function Locate(names: seq<string>, key: string): (r: Option<nat>)
    ensures r.None? <==> names == []
    ensures r.Some? ==> r.value < |names|
    ensures r.Some? && key in names ==>
      names[r.value] == key && forall i :: 0 <= i < r.value ==> names[i] != key
    ensures r.Some? && key !in names ==> r.value == |names| - 1
    decreases |names|
  {
    if names == [] then None
    else if names[0] == key || |names| == 1 then Some(0)
    else
      var rest := Locate(names[1..], key);
      assert key in names ==> key in names[1..];
      Some(rest.value + 1)
  }

  /** The for/break search itself. */
  method FindByName(names: seq<string>, key: string) returns (r: Option<nat>)
    ensures r == Locate(names, key)
  {
    if names == [] {
      return None;
    }
    var i := 0;
    while i < |names|
      invariant 0 <= i <= |names|
      invariant forall k :: 0 <= k < i ==> names[k] != key
    {
      if names[i] == key {
        break;
      }
      i := i + 1;
    }
    if i == |names| {
      LocateMiss(names, key);
      r := Some(|names| - 1);
    } else {
      LocateFirst(names, key, i);
      r := Some(i);
    }
  }

  /** A name that first occurs at `i` is located at `i`. */
  lemma LocateFirst(names: seq<string>, key: string, i: nat)
    requires i < |names| && names[i] == key
    requires forall k :: 0 <= k < i ==> names[k] != key
    ensures Locate(names, key) == Some(i)
  {
    assert key in names;
  }

  /** A missing name falls through to the last element. */
  lemma LocateMiss(names: seq<string>, key: string)
    requires names != [] && key !in names
    ensures Locate(names, key) == Some(|names| - 1)
  {
  }

  function AllFrames(holders: seq<AtlasHolder>): set<MeshObject>
    reads set h | h in holders
  {
    set h, f | h in holders && f in h.frames :: f
  }

  /** The frames as values, in order. */
  function FramesData(frames: seq<MeshObject>): (r: seq<FrameData>)
    reads set f | f in frames
    reads set f | f in frames :: f.verts
    reads set f | f in frames :: f.uvs
    ensures |r| == |frames|
    ensures forall j :: 0 <= j < |frames| ==> r[j] == frames[j].Data()
    ensures FrameDataNames(r) == FrameNames(frames)
  {
    seq(|frames|, j requires 0 <= j < |frames|
                    reads (set f | f in frames), (set f | f in frames :: f.verts),
                          (set f | f in frames :: f.uvs)
                    => frames[j].Data())
  }

  /** The imported atlases as values: what every frame swap reads. */
  function Library(holders: seq<AtlasHolder>): (lib: seq<AtlasData>)
    reads set h | h in holders
    reads AllFrames(holders)
    reads set f | f in AllFrames(holders) :: f.verts
    reads set f | f in AllFrames(holders) :: f.uvs
    ensures |lib| == |holders|
    ensures forall i :: 0 <= i < |holders| ==>
      lib[i] == AtlasData(holders[i].name, FramesData(holders[i].frames))
    ensures AtlasDataNames(lib) == AtlasNames(holders)
  {
    seq(|holders|, i requires 0 <= i < |holders|
                     reads (set h | h in holders), AllFrames(holders),
                           (set f | f in AllFrames(holders) :: f.verts),
                           (set f | f in AllFrames(holders) :: f.uvs)
                     => AtlasData(holders[i].name, FramesData(holders[i].frames)))
  }

  function AtlasDataNames(lib: seq<AtlasData>): (names: seq<string>)
    ensures |names| == |lib|
    ensures forall i :: 0 <= i < |lib| ==> names[i] == lib[i].name
  {
    seq(|lib|, i requires 0 <= i < |lib| => lib[i].name)
  }

  function FrameDataNames(frames: seq<FrameData>): (names: seq<string>)
    ensures |names| == |frames|
    ensures forall j :: 0 <= j < |frames| ==> names[j] == frames[j].name
  {
    seq(|frames|, j requires 0 <= j < |frames| => frames[j].name)
  }

  /** The frame the three lookups in the source pick: the atlas by name
      (falling through to the last), then the frame by name in it (falling
      through likewise). `frameName` is `None` when the id has no `|` part,
      which fails only once the frame loop is reached. */
  function Lookup(lib: seq<AtlasData>, atlasName: string, frameName: Option<string>)
    : (r: Result<FrameData, SwapError>)
    ensures r == Failure(NoAtlas) <==> lib == []
    ensures r.Failure? && r.error == BadId ==> frameName.None?
    ensures r.Success? ==> frameName.Some?
    ensures r.Success? ==>
      exists a :: a in lib && r.value in a.frames &&
        (atlasName in AtlasDataNames(lib) ==> a.name == atlasName) &&
        (frameName.value in FrameDataNames(a.frames) ==> r.value.name == frameName.value)
  {
    match Locate(AtlasDataNames(lib), atlasName)
    case None => Failure(NoAtlas)
    case Some(i) =>
      var frames := lib[i].frames;
      if frames == [] then Failure(NoFrames)
      else if frameName.None? then Failure(BadId)
      else
        var j := Locate(FrameDataNames(frames), frameName.value).value;
        assert lib[i] in lib && frames[j] in lib[i].frames;
        assert atlasName in AtlasDataNames(lib) ==> lib[i].name == atlasName;
        assert frameName.value in FrameDataNames(frames) ==> frames[j].name == frameName.value;
        Success(frames[j])
  }

  /** The lookup succeeds exactly when there is an atlas, the one the
      search stops at has frames, and the id names a frame. */
  lemma LookupSucceeds(lib: seq<AtlasData>, atlasName: string, frameName: Option<string>)
    ensures Lookup(lib, atlasName, frameName).Success? <==>
      lib != [] && lib[Locate(AtlasDataNames(lib), atlasName).value].frames != [] && frameName.Some?
  {
  }

  /** A frame found by its own id: when atlas and frame names carry no `|`
      and each is the first of its name, the id leads back to the frame. */
  lemma IdLocatesFrame(atlasNames: seq<string>, frameNames: seq<string>, i: nat, j: nat)
    requires i < |atlasNames| && j < |frameNames|
    requires IdSeparator !in atlasNames[i] && IdSeparator !in frameNames[j]
    requires forall k :: 0 <= k < i ==> atlasNames[k] != atlasNames[i]
    requires forall k :: 0 <= k < j ==> frameNames[k] != frameNames[j]
    ensures var parts := Split(FrameIdText(atlasNames[i], frameNames[j]), IdSeparator);
      |parts| == 2 &&
      Locate(atlasNames, parts[0]) == Some(i) && Locate(frameNames, parts[1]) == Some(j)
  {
    LocateFirst(atlasNames, atlasNames[i], i);
    LocateFirst(frameNames, frameNames[j], j);
  }

  /** The copy loops of `setSpriteFrame`: element by element, as far as
      both arrays reach. */
  method CopyInto<T>(src: array<T>, dst: array<T>)
    modifies dst
    ensures dst[..] == Overwrite(old(dst[..]), old(src[..]))
  {
    var n := if src.Length < dst.Length then src.Length else dst.Length;
    var i := 0;
    while i < n
      invariant 0 <= i <= n
      invariant forall k :: 0 <= k < i ==> dst[k] == old(src[k])
      invariant forall k :: i <= k < dst.Length ==> dst[k] == old(dst[k])
      invariant src != dst ==> forall k :: 0 <= k < src.Length ==> src[k] == old(src[k])
    {
      dst[i] := src[i];
      i := i + 1;
    }
  }

  /** `setSpriteFrame`: the source frame's vertices and UVs copied onto the
      destination index by index and its id recorded in `dst['sprite']`.
      Materials and the texture image are not modelled. */
  method SetSpriteFrame(src: MeshObject, dst: MeshObject) returns (err: Option<SwapError>)
    modifies dst`sprite, dst.verts, dst.uvs
    ensures err == (if src.verts.Length > dst.verts.Length then Some(TooFewVertices)
                    else if src.uvs.Length < dst.uvs.Length then Some(TooFewUvs)
                    else None)
    ensures dst.verts[..] == Overwrite(old(dst.verts[..]), old(src.verts[..]))
    ensures dst.uvs[..] == if err.None? then Overwrite(old(dst.uvs[..]), old(src.uvs[..]))
                           else old(dst.uvs[..])
    ensures dst.sprite == if err.None? then Some(src.FrameId()) else old(dst.sprite)
    ensures src.verts[..] == old(src.verts[..]) && src.uvs[..] == old(src.uvs[..])
  {
    CopyInto(src.verts, dst.verts);
    if src.verts.Length > dst.verts.Length {
      return Some(TooFewVertices);
    }
    if src.uvs.Length < dst.uvs.Length {
      return Some(TooFewUvs);
    }
    CopyInto(src.uvs, dst.uvs);
    dst.sprite := Some(src.FrameId());
    err := None;
  }

  /** What a swap to the frame `frameName` of atlas `atlasName` makes of a
      mesh: a failed lookup changes nothing; otherwise the frame's vertices
      are copied, then its UVs and id, then the stored anchor is re-applied,
      each step failing when the arrays do not fit or a key is missing. */
  function Swap(lib: seq<AtlasData>, m: MeshState, atlasName: string, frameName: Option<string>)
    : (r: (MeshState, Option<SwapError>))
    ensures r.0.stored == m.stored && |r.0.verts| == |m.verts| && |r.0.uvs| == |m.uvs|
    ensures Lookup(lib, atlasName, frameName).Failure? ==>
      r == (m, Some(Lookup(lib, atlasName, frameName).error))
    ensures r.0.uvs != m.uvs || r.0.sprite != m.sprite ==>
      r.1.None? || r.1 == Some(AnchorKeyMissing)
    ensures r.1.None? || r.1 == Some(AnchorKeyMissing) ==>
      var src := Lookup(lib, atlasName, frameName).value;
      r.0.sprite == Some(src.id) && |src.uvs| >= |m.uvs| && r.0.uvs == src.uvs[..|m.uvs|] &&
      (r.1.None? <==> !m.stored.SecondKeyMissing?)
  {
    match Lookup(lib, atlasName, frameName)
    case Failure(e) => (m, Some(e))
    case Success(src) => ShowFrame(src, m)
  }

  /** `setSpriteFrame` then `restoreAnchorPoint`, on values. */
  function ShowFrame(src: FrameData, m: MeshState): (r: (MeshState, Option<SwapError>))
    ensures r.0.stored == m.stored && |r.0.verts| == |m.verts| && |r.0.uvs| == |m.uvs|
    ensures r.1.None? || r.1 == Some(AnchorKeyMissing) ==>
      r.0.sprite == Some(src.id) && |src.uvs| >= |m.uvs| && r.0.uvs == src.uvs[..|m.uvs|] &&
      (r.1.None? <==> !m.stored.SecondKeyMissing?)
    ensures r.1.Some? && r.1 != Some(AnchorKeyMissing) ==> r.0.uvs == m.uvs && r.0.sprite == m.sprite
  {
    var verts := Overwrite(m.verts, src.verts);
    if |src.verts| > |m.verts| then (m.(verts := verts), Some(TooFewVertices))
    else if |src.uvs| < |m.uvs| then (m.(verts := verts), Some(TooFewUvs))
    else
      (MeshState(AfterRestore(verts, m.stored), Overwrite(m.uvs, src.uvs), Some(src.id), m.stored),
       if m.stored.SecondKeyMissing? then Some(AnchorKeyMissing) else None)
  }

  /** A frame with exactly as many vertices and UVs as the mesh. */
  predicate Fits(lib: seq<AtlasData>, m: MeshState, atlasName: string, frameName: Option<string>) {
    var found := Lookup(lib, atlasName, frameName);
    found.Success? && |found.value.verts| == |m.verts| && |found.value.uvs| == |m.uvs|
  }

  /** Between frames that fit the mesh, only the last swap matters: a
      successful swap followed by a second one ends where the second alone
      would. In particular swapping twice to one frame is swapping once. */
  lemma LastSwapWins(lib: seq<AtlasData>, m: MeshState, a1: string, f1: Option<string>,
                     a2: string, f2: Option<string>)
    requires Fits(lib, m, a1, f1) && Fits(lib, m, a2, f2)
    requires Swap(lib, m, a1, f1).1.None?
    ensures Swap(lib, Swap(lib, m, a1, f1).0, a2, f2) == Swap(lib, m, a2, f2)
  {
    var m1 := Swap(lib, m, a1, f1).0;
    var src := Lookup(lib, a2, f2).value;
    assert Overwrite(m1.verts, src.verts) == src.verts == Overwrite(m.verts, src.verts);
    assert Overwrite(m1.uvs, src.uvs) == src.uvs == Overwrite(m.uvs, src.uvs);
  }

  /** After a successful swap a stored anchor is again the mesh's actual
      anchor: the sprite keeps its anchor across frames (for vertices
      inside the sentinels and a frame of nonzero width and height). */
  lemma SwapKeepsAnchor(lib: seq<AtlasData>, m: MeshState, atlasName: string, frameName: Option<string>)
    requires Swap(lib, m, atlasName, frameName).1.None? && m.stored.Stored?
    requires var vs := Overwrite(m.verts, Lookup(lib, atlasName, frameName).value.verts);
      |vs| > 0 && InRange(vs) && Bounds(vs).maxX != Bounds(vs).minX && Bounds(vs).maxZ != Bounds(vs).minZ &&
      InRange(Shifted(vs, Translation(Bounds(vs), m.stored.anchor)))
    ensures Actual(Bounds(Swap(lib, m, atlasName, frameName).0.verts)) == Some(m.stored.anchor)
  {
    var vs := Overwrite(m.verts, Lookup(lib, atlasName, frameName).value.verts);
    SetAnchorThenActual(vs, m.stored.anchor);
  }

  /** A swap of `dst` as one step between two heaps: its new state and
      error are those `Swap` gives for the atlases and the mesh as they
      were before. */
  twostate predicate Swapped(root: AtlasesHolder, dst: MeshObject, atlasName: string,
                             frameName: Option<string>, new err: Option<SwapError>)
    reads dst, dst.verts, dst.uvs
  {
    (dst.State(), err) == Swap(old(Library(root.holders)), old(dst.State()), atlasName, frameName)
  }

  /** The atlas and frame names an id gives: the pieces before and after
      the first `|`. */
  function IdParts(id: string): (r: (string, Option<string>))
    ensures var parts := Split(id, IdSeparator);
      r.0 == parts[0] && (r.1.Some? <==> |parts| >= 2) && (r.1.Some? ==> r.1.value == parts[1])
  {
    var parts := Split(id, IdSeparator);
    (parts[0], if |parts| >= 2 then Some(parts[1]) else None)
  }

  /** The lookup, swap and anchor restore shared by `setSpriteFrameById` and
      the set-frame operator. */
  method SwapTo(root: AtlasesHolder, dst: MeshObject, atlasName: string, frameName: Option<string>)
    returns (err: Option<SwapError>)
    modifies dst`sprite, dst.verts, dst.uvs
    ensures Swapped(root, dst, atlasName, frameName, err)
    ensures old(Apart(dst, root.holders)) ==> Library(root.holders) == old(Library(root.holders))
  {
    var found := FindFrame(root, atlasName, frameName);
    if found.Failure? {
      err := Some(found.error);
    } else {
      err := SwapFrom(found.value, dst);
    }
    if old(Apart(dst, root.holders)) {
      LibraryUnchanged(root.holders);
    }
  }

  /** The two `for … break` searches: the atlas by name, then the frame by
      name in it. */
  method FindFrame(root: AtlasesHolder, atlasName: string, frameName: Option<string>)
    returns (r: Result<MeshObject, SwapError>)
    ensures Lookup(Library(root.holders), atlasName, frameName) ==
      if r.Success? then Success(r.value.Data()) else Failure(r.error)
  {
    var ai := FindByName(AtlasNames(root.holders), atlasName);
    if ai.None? {
      return Failure(NoAtlas);
    }
    var frames := root.holders[ai.value].frames;
    if frames == [] {
      return Failure(NoFrames);
    }
    if frameName.None? {
      return Failure(BadId);
    }
    var fi := FindByName(FrameNames(frames), frameName.value);
    r := Success(frames[fi.value]);
  }

  /** A mesh that is none of the atlases' frames and shares no buffer with
      one: swapping it leaves the atlases as they were. */
  predicate Apart(m: MeshObject, holders: seq<AtlasHolder>)
    reads set h | h in holders
  {
    m !in AllFrames(holders) &&
    forall f :: f in AllFrames(holders) ==> f.verts != m.verts && f.uvs != m.uvs
  }

  /** The atlases read the same as long as no holder, frame or frame
      buffer has changed. */
  twostate lemma LibraryUnchanged(holders: seq<AtlasHolder>)
    requires forall h :: h in holders ==> unchanged(h)
    requires forall f :: f in old(AllFrames(holders)) ==> unchanged(f, f.verts, f.uvs)
    ensures Library(holders) == old(Library(holders))
  {
    forall i | 0 <= i < |holders|
      ensures Library(holders)[i] == old(Library(holders))[i]
    {
      assert holders[i] in holders;
      var frames := holders[i].frames;
      assert frames == old(holders[i].frames);
      forall j | 0 <= j < |frames|
        ensures frames[j].Data() == old(frames[j].Data())
      {
        assert frames[j] in old(holders[i].frames);
        assert frames[j] in old(AllFrames(holders));
      }
      assert FramesData(frames) == old(FramesData(frames));
    }
  }

  /** The frame copy and anchor restore, once the frame is found. */
  method SwapFrom(src: MeshObject, dst: MeshObject) returns (err: Option<SwapError>)
    modifies dst`sprite, dst.verts, dst.uvs
    ensures (dst.State(), err) == ShowFrame(old(src.Data()), old(dst.State()))
  {
    err := SetSpriteFrame(src, dst);
    if err.None? {
      var ok := dst.RestoreAnchorPoint();
      if !ok {
        err := Some(AnchorKeyMissing);
      }
    }
  }

  /** `setSpriteFrameById`: the id split on `|` names the atlas and the frame. */
  method SetSpriteFrameById(root: AtlasesHolder, dst: MeshObject, id: string)
    returns (err: Option<SwapError>)
    modifies dst`sprite, dst.verts, dst.uvs
    ensures Swapped(root, dst, IdParts(id).0, IdParts(id).1, err)
    ensures old(Apart(dst, root.holders)) ==> Library(root.holders) == old(Library(root.holders))
  {
    var names := IdParts(id);
    err := SwapTo(root, dst, names.0, names.1);
  }

  /** The set-frame operator's `execute`: the same swap for names chosen in
      its panel. */
  method ExecuteSetSpriteFrame(root: AtlasesHolder, dst: MeshObject, atlasName: string, frameName: string)
    returns (err: Option<SwapError>)
    modifies dst`sprite, dst.verts, dst.uvs
    ensures Swapped(root, dst, atlasName, Some(frameName), err)
    ensures old(Apart(dst, root.holders)) ==> Library(root.holders) == old(Library(root.holders))
  {
    err := SwapTo(root, dst, atlasName, Some(frameName));
  }
}
