/** Frame drivers (CheetahAtlasImporter.py, `preFrameHandler` and the
    add-driver operator): empties parented to a sprite whose height `z`
    switches the sprite's frame. A single-frame driver fires once when it
    rises above 1 and re-arms when it falls below 1; a pattern driver maps
    its height to a frame number and swaps whenever that number changes. */
module Drivers {
  import opened Wrappers
  import opened Scene

  /** The single-frame driver after one frame change: its new `enabled`
      flag and whether it asks for a swap. */
  datatype Toggle = Toggle(enabled: bool, swap: bool)

  /** The single-frame branch of `preFrameHandler`. */
  function SingleStep(enabled: bool, z: real): (t: Toggle)
    ensures t.swap <==> !enabled && z > 1.0
    ensures t.enabled <==> z > 1.0 || (enabled && z == 1.0)
  {
    if !enabled && z > 1.0 then Toggle(true, true)
    else if enabled && z < 1.0 then Toggle(false, false)
    else Toggle(enabled, false)
  }

  /** The single-frame driver over a run of frame changes, with the heights
      it sees in order: its final flag and how many swaps it asked for. */
  datatype Run = Run(enabled: bool, swaps: nat)

  function RunFrom(enabled: bool, zs: seq<real>): Run
    decreases |zs|
  {
    if zs == [] then Run(enabled, 0)
    else
      var prev := RunFrom(enabled, zs[..|zs| - 1]);
      var t := SingleStep(prev.enabled, zs[|zs| - 1]);
      Run(t.enabled, prev.swaps + if t.swap then 1 else 0)
  }

  predicate Rises(zs: seq<real>) {
    exists i :: 0 <= i < |zs| && zs[i] > 1.0
  }

  /** How often the height is below 1, the only thing that re-arms a
      driver. */
  function Releases(zs: seq<real>): nat
    decreases |zs|
  {
    if zs == [] then 0
    else Releases(zs[..|zs| - 1]) + if zs[|zs| - 1] < 1.0 then 1 else 0
  }

  /** While the height never drops below 1, a driver swaps at most once: a
      disarmed driver exactly once if the height ever exceeds 1, an armed
      one never; and it ends armed exactly when it started so or the height
      exceeded 1. */
  lemma {:induction false} HeldSwapsOnce(enabled: bool, zs: seq<real>)
    requires forall i :: 0 <= i < |zs| ==> zs[i] >= 1.0
    ensures RunFrom(enabled, zs).swaps == if !enabled && Rises(zs) then 1 else 0
    ensures RunFrom(enabled, zs).enabled <==> enabled || Rises(zs)
    decreases |zs|
  {
    if zs != [] {
      var init := zs[..|zs| - 1];
      assert forall i :: 0 <= i < |init| ==> init[i] == zs[i];
      HeldSwapsOnce(enabled, init);
      if Rises(init) {
        var i :| 0 <= i < |init| && init[i] > 1.0;
        assert zs[i] > 1.0;
      }
      if zs[|zs| - 1] > 1.0 {
        assert Rises(zs);
      }
      if Rises(zs) && !Rises(init) {
        var i :| 0 <= i < |zs| && zs[i] > 1.0;
        assert i == |zs| - 1;
      }
    }
  }

  /** Every swap but the first needs a release in between: the swaps never
      outnumber the releases, plus one for a driver that starts disarmed. */
  lemma {:induction false} SwapsNeedReleases(enabled: bool, zs: seq<real>)
    ensures RunFrom(enabled, zs).swaps + (if RunFrom(enabled, zs).enabled then 0 else 1)
         <= (if enabled then 0 else 1) + Releases(zs)
    decreases |zs|
  {
    if zs != [] {
      SwapsNeedReleases(enabled, zs[..|zs| - 1]);
    }
  }

  /** The frame number a pattern driver at height `z` selects (integral
      increment and start; Python's `round` then leaves it unchanged). */
  function PatternFrame(z: real, increment: int, start: int): int {
    (z - 1.0).Floor * increment + start
  }

  /** The pattern driver after one frame change: its new `currentFrame` and
      the frame number it swaps to, if any. */
  datatype PatternOutcome = PatternOutcome(current: int, swapTo: Option<int>)

  /** The pattern branch of `preFrameHandler`. */
  function PatternStep(current: int, z: real, increment: int, start: int): (o: PatternOutcome)
    ensures o.swapTo.Some? <==> z > 1.0 && PatternFrame(z, increment, start) != current
    ensures o.swapTo.Some? ==> o.swapTo.value == o.current
    ensures o.current == if z > 1.0 then PatternFrame(z, increment, start) else current
  {
    if z > 1.0 then
      var frame := PatternFrame(z, increment, start);
      if frame != current then PatternOutcome(frame, Some(frame)) else PatternOutcome(current, None)
    else PatternOutcome(current, None)
  }

  /** Each unit band of height above 1 selects one frame: heights in
      [1 + k, 2 + k) select frame `k * increment + start`. */
  lemma PatternBand(z: real, k: nat, increment: int, start: int)
    requires 1.0 + k as real <= z < 2.0 + k as real
    ensures PatternFrame(z, increment, start) == k * increment + start
  {
    assert (z - 1.0).Floor == k;
  }

  /** Staying at the same height swaps at most once: the step after a step
      asks for nothing. */
  lemma PatternSettles(current: int, z: real, increment: int, start: int)
    ensures var o := PatternStep(current, z, increment, start);
      PatternStep(o.current, z, increment, start).swapTo == None
  {
  }

  /** One driver's whole step: the single-frame branch, then the pattern
      branch, with the ids they ask for in that order; `format` stands for
      Python's `pattern % frame`. */
  datatype Outcome = Outcome(enabled: bool, currentFrame: int, requests: seq<string>)

  function SingleRequests(frame: Option<string>, enabled: bool, z: real): (r: seq<string>)
    ensures r == [] || (frame.Some? && r == [frame.value] && !enabled && z > 1.0)
    ensures frame.Some? && !enabled && z > 1.0 ==> r == [frame.value]
  {
    if frame.Some? && SingleStep(enabled, z).swap then [frame.value] else []
  }

  /** The pattern branch's part of a step: the new `currentFrame` and the
      id it asks for, if any; a driver without a pattern keeps its frame. */
  function PatternPart(pattern: Option<string>, z: real, increment: int, start: int,
                       format: (string, int) -> string, current: int): (int, seq<string>)
  {
    if pattern.Some? then
      var p := PatternStep(current, z, increment, start);
      (p.current, if p.swapTo.Some? then [format(pattern.value, p.swapTo.value)] else [])
    else (current, [])
  }

  function DriverStep(frame: Option<string>, pattern: Option<string>, z: real,
                      increment: int, start: int, format: (string, int) -> string,
                      enabled: bool, current: int): (o: Outcome)
    ensures o.enabled == if frame.Some? then SingleStep(enabled, z).enabled else enabled
    ensures |o.requests| <= 2
    ensures frame.None? && pattern.None? ==> o.requests == [] && o.currentFrame == current
  {
    var t := if frame.Some? then SingleStep(enabled, z) else Toggle(enabled, false);
    var p := PatternPart(pattern, z, increment, start, format, current);
    Outcome(t.enabled, p.0, SingleRequests(frame, enabled, z) + p.1)
  }

  /** A driver below height 1 never asks for a swap. */
  lemma LowDriverIsQuiet(frame: Option<string>, pattern: Option<string>, z: real,
                         increment: int, start: int, format: (string, int) -> string,
                         enabled: bool, current: int)
    requires z <= 1.0
    ensures DriverStep(frame, pattern, z, increment, start, format, enabled, current).requests == []
    ensures DriverStep(frame, pattern, z, increment, start, format, enabled, current).currentFrame == current
  {
  }

  /** The swap a request asks for: the atlas and frame its id names. */
  function SwapById(lib: seq<AtlasData>, m: MeshState, id: string): (MeshState, Option<SwapError>) {
    Swap(lib, m, IdParts(id).0, IdParts(id).1)
  }

  /** Requests carried out in order on one sprite, stopping at the first
      that fails: the sprite's state and the error, if any. */
  function SwapAll(lib: seq<AtlasData>, m: MeshState, ids: seq<string>): (r: (MeshState, Option<SwapError>))
    ensures r.0.stored == m.stored && |r.0.verts| == |m.verts| && |r.0.uvs| == |m.uvs|
    ensures ids == [] ==> r == (m, None)
    decreases |ids|
  {
    if ids == [] then (m, None)
    else
      var s := SwapById(lib, m, ids[0]);
      if s.1.Some? then s else SwapAll(lib, s.0, ids[1..])
  }

  /** Carrying out two runs of requests one after the other is carrying
      out both in one run. */
  lemma {:induction false} SwapAllAppend(lib: seq<AtlasData>, m: MeshState, a: seq<string>, b: seq<string>)
    ensures var first := SwapAll(lib, m, a);
      SwapAll(lib, m, a + b) == if first.1.Some? then first else SwapAll(lib, first.0, b)
    decreases |a|
  {
    if a != [] {
      var s := SwapById(lib, m, a[0]);
      assert (a + b)[0] == a[0] && (a + b)[1..] == a[1..] + b;
      if s.1.None? {
        SwapAllAppend(lib, s.0, a[1..], b);
      } else {
        assert SwapAll(lib, m, a + b) == s;
      }
    } else {
      assert a + b == b;
    }
  }

  /** When every requested frame fits the sprite and no anchor key is
      missing, no request fails and the sprite ends as if only the last
      one had been carried out. */
  lemma {:induction false} OnlyLastSwapCounts(lib: seq<AtlasData>, m: MeshState, ids: seq<string>)
    requires ids != [] && !m.stored.SecondKeyMissing?
    requires forall id :: id in ids ==> Fits(lib, m, IdParts(id).0, IdParts(id).1)
    ensures SwapAll(lib, m, ids) == SwapById(lib, m, ids[|ids| - 1])
    decreases |ids|
  {
    var s := SwapById(lib, m, ids[0]);
    assert ids[0] in ids;
    if |ids| > 1 {
      var rest := ids[1..];
      forall id | id in rest
        ensures Fits(lib, s.0, IdParts(id).0, IdParts(id).1)
      {
        assert id in ids;
      }
      OnlyLastSwapCounts(lib, s.0, rest);
      var last := ids[|ids| - 1];
      assert last in ids;
      LastSwapWins(lib, m, IdParts(ids[0]).0, IdParts(ids[0]).1, IdParts(last).0, IdParts(last).1);
    }
  }

  /** A driver: the empty the add-driver operator creates, parented to the
      sprite whose frame it switches. */
  class Driver {
    const parent: MeshObject         // ob.parent, the sprite
    var z: real                      // ob.location[2], animated
    const frame: Option<string>      // ob['frame'], single-frame drivers
    var enabled: bool                // ob['enabled']
    const pattern: Option<string>    // ob['framePattern'], pattern drivers
    const frameIncrement: int        // ob['frameIncrement']
    const startFrame: int            // ob['startFrame']
    var currentFrame: int            // ob['currentFrame']

    /** The add-driver operator: a single-frame driver for `frameId`, at the
        origin and disarmed. */
    constructor (sprite: MeshObject, frameId: string)
      ensures parent == sprite && frame == Some(frameId) && pattern == None
      ensures z == 0.0 && !enabled
    {
      parent := sprite;
      z := 0.0;
      frame := Some(frameId);
      enabled := false;
      pattern := None;
      frameIncrement := 0;
      startFrame := 0;
      currentFrame := 0;
    }

    /** The single-frame branch: arm and swap on a rise above 1, disarm on
        a fall below 1. The source sets the flag just before the swap and
        keeps it when the swap raises; the swap neither reads nor writes the
        driver, so setting it just after ends in the same state. */
    method SingleBranch(root: AtlasesHolder) returns (requested: seq<string>, err: Option<SwapError>)
      modifies this`enabled, parent`sprite, parent.verts, parent.uvs
      ensures enabled == if frame.Some? then SingleStep(old(enabled), z).enabled else old(enabled)
      ensures requested == SingleRequests(frame, old(enabled), z)
      ensures requested == [] ==>
        err.None? && parent.sprite == old(parent.sprite) &&
        parent.verts[..] == old(parent.verts[..]) && parent.uvs[..] == old(parent.uvs[..])
      ensures requested != [] ==>
        Swapped(root, parent, IdParts(requested[0]).0, IdParts(requested[0]).1, err)
      ensures old(Apart(parent, root.holders)) ==>
        (parent.State(), err) == SwapAll(old(Library(root.holders)), old(parent.State()), requested)
    {
      requested := [];
      err := None;
      if frame.Some? {
        if !enabled && z > 1.0 {
          requested := [frame.value];
          err := SetSpriteFrameById(root, parent, frame.value);
          enabled := true;
        } else if enabled && z < 1.0 {
          enabled := false;
        }
      }
    }

    /** The pattern branch: above height 1, recompute the frame number and
        swap when it differs from the stored one (stored just after the
        swap here, just before it in the source, to the same effect). */
    method PatternBranch(root: AtlasesHolder, format: (string, int) -> string)
      returns (requested: seq<string>, err: Option<SwapError>)
      modifies this`currentFrame, parent`sprite, parent.verts, parent.uvs
      ensures (currentFrame, requested) == PatternPart(pattern, z, frameIncrement, startFrame, format, old(currentFrame))
      ensures requested == [] ==>
        err.None? && parent.sprite == old(parent.sprite) &&
        parent.verts[..] == old(parent.verts[..]) && parent.uvs[..] == old(parent.uvs[..])
      ensures requested != [] ==>
        Swapped(root, parent, IdParts(requested[0]).0, IdParts(requested[0]).1, err)
      ensures old(Apart(parent, root.holders)) ==>
        (parent.State(), err) == SwapAll(old(Library(root.holders)), old(parent.State()), requested)
    {
      requested := [];
      err := None;
      if pattern.Some? {
        if z > 1.0 {
          var next := PatternFrame(z, frameIncrement, startFrame);
          if next != currentFrame {
            var id := format(pattern.value, next);
            requested := [id];
            err := SetSpriteFrameById(root, parent, id);
            currentFrame := next;
          }
        }
      }
    }

    /** The driver has taken its step from flags `enabled0` and `current0`,
        asking for `requested`. */
    predicate Stepped(format: (string, int) -> string, enabled0: bool, current0: int,
                      requested: seq<string>)
      reads this
    {
      var o := DriverStep(frame, pattern, z, frameIncrement, startFrame, format, enabled0, current0);
      enabled == o.enabled && currentFrame == o.currentFrame && requested == o.requests
    }

    /** One driver's turn in `preFrameHandler`: the single-frame branch,
        then the pattern branch. A failing swap raises, which ends the
        handler. */
    method OnFrameChange(root: AtlasesHolder, format: (string, int) -> string)
      returns (requested: seq<string>, err: Option<SwapError>)
      modifies this`enabled, this`currentFrame, parent`sprite, parent.verts, parent.uvs
      ensures var o := DriverStep(frame, pattern, z, frameIncrement, startFrame, format,
                                  old(enabled), old(currentFrame));
        enabled == o.enabled &&
        (err.None? ==> requested == o.requests && currentFrame == o.currentFrame) &&
        (err.Some? ==> requested != [] && requested <= o.requests &&
                       (currentFrame == o.currentFrame || currentFrame == old(currentFrame)))
      ensures requested == [] ==>
        err.None? && parent.sprite == old(parent.sprite) &&
        parent.verts[..] == old(parent.verts[..]) && parent.uvs[..] == old(parent.uvs[..])
      ensures old(Apart(parent, root.holders)) ==>
        Library(root.holders) == old(Library(root.holders)) &&
        (parent.State(), err) == SwapAll(old(Library(root.holders)), old(parent.State()), requested)
    {
      ghost var lib := Library(root.holders);
      ghost var start := parent.State();
      requested, err := SingleBranch(root);
      if old(Apart(parent, root.holders)) {
        LibraryUnchanged(root.holders);
      }
      if err.Some? {
        return;
      }
      var more;
      more, err := PatternBranch(root, format);
      if old(Apart(parent, root.holders)) {
        LibraryUnchanged(root.holders);
        SwapAllAppend(lib, start, requested, more);
      }
      requested := requested + more;
    }
  }

  /** The requests the first `|requests|` drivers made of sprite `m`, in
      the order they were made. */
  function Issued(drivers: seq<Driver>, requests: seq<seq<string>>, m: MeshObject): seq<string>
    requires |requests| <= |drivers|
    decreases |requests|
  {
    if requests == [] then []
    else
      var k := |requests| - 1;
      Issued(drivers, requests[..k], m) + if drivers[k].parent == m then requests[k] else []
  }

  lemma IssuedAppend(drivers: seq<Driver>, requests: seq<seq<string>>, req: seq<string>, m: MeshObject)
    requires |requests| < |drivers|
    ensures Issued(drivers, requests + [req], m) ==
      Issued(drivers, requests, m) + if drivers[|requests|].parent == m then req else []
  {
    assert (requests + [req])[..|requests|] == requests;
  }

  /** Sprites none of which is or shares a buffer with an atlas frame, and
      no two of which share a buffer unless they are one object. */
  predicate Separate(drivers: seq<Driver>, holders: seq<AtlasHolder>)
    reads set h | h in holders
  {
    (forall k :: 0 <= k < |drivers| ==> Apart(drivers[k].parent, holders)) &&
    (forall j, k ::
       0 <= j < |drivers| && 0 <= k < |drivers| && drivers[j].parent != drivers[k].parent ==>
         drivers[j].parent.verts != drivers[k].parent.verts &&
         drivers[j].parent.uvs != drivers[k].parent.uvs)
  }

  /** The drivers' sprites' states, driver by driver. */
  function States(drivers: seq<Driver>): (r: seq<MeshState>)
    reads set d | d in drivers :: d.parent
    reads set d | d in drivers :: d.parent.verts
    reads set d | d in drivers :: d.parent.uvs
    ensures |r| == |drivers|
    ensures forall k :: 0 <= k < |drivers| ==> r[k] == drivers[k].parent.State()
  {
    seq(|drivers|, k requires 0 <= k < |drivers|
                     reads (set d | d in drivers :: d.parent),
                           (set d | d in drivers :: d.parent.verts),
                           (set d | d in drivers :: d.parent.uvs)
                     => drivers[k].parent.State())
  }

  /** Every sprite is in the state its start state reaches by the requests
      the first `|requests|` drivers made of it; `err` is the error of the
      last of them, met by that driver's sprite, and the others met none. */
  predicate Carried(lib: seq<AtlasData>, start: seq<MeshState>, now: seq<MeshState>,
                    drivers: seq<Driver>, requests: seq<seq<string>>, err: Option<SwapError>)
    requires |start| == |now| == |drivers| && |requests| <= |drivers|
  {
    forall k :: 0 <= k < |drivers| ==>
      var s := SwapAll(lib, start[k], Issued(drivers, requests, drivers[k].parent));
      now[k] == s.0 &&
      s.1 == if err.Some? && requests != [] && drivers[k].parent == drivers[|requests| - 1].parent
             then err else None
  }

  /** One more driver's requests, carried out on its sprite alone, extend
      what has been carried out. */
  lemma CarriedStep(lib: seq<AtlasData>, start: seq<MeshState>, before: seq<MeshState>,
                    after: seq<MeshState>, drivers: seq<Driver>, requests: seq<seq<string>>,
                    req: seq<string>, err: Option<SwapError>)
    requires |start| == |before| == |after| == |drivers| && |requests| < |drivers|
    requires Carried(lib, start, before, drivers, requests, None)
    requires (after[|requests|], err) == SwapAll(lib, before[|requests|], req)
    requires forall k :: 0 <= k < |drivers| ==>
      if drivers[k].parent == drivers[|requests|].parent
      then before[k] == before[|requests|] && after[k] == after[|requests|]
      else after[k] == before[k]
    ensures Carried(lib, start, after, drivers, requests + [req], err)
  {
    var i := |requests|;
    var p := drivers[i].parent;
    forall k | 0 <= k < |drivers|
      ensures var s := SwapAll(lib, start[k], Issued(drivers, requests + [req], drivers[k].parent));
        after[k] == s.0 &&
        s.1 == if err.Some? && drivers[k].parent == drivers[i].parent then err else None
    {
      var q := drivers[k].parent;
      IssuedAppend(drivers, requests, req, q);
      if q == p {
        SwapAllAppend(lib, start[k], Issued(drivers, requests, q), req);
      } else {
        assert Issued(drivers, requests, q) + [] == Issued(drivers, requests, q);
      }
    }
  }

  /** Driver `i`'s turn, with what it does to all the sprites. */
  method Turn(root: AtlasesHolder, drivers: seq<Driver>, i: nat, d: Driver, format: (string, int) -> string,
              ghost sep: bool, ghost lib: seq<AtlasData>, ghost start: seq<MeshState>,
              ghost requests: seq<seq<string>>)
    returns (requested: seq<string>, err: Option<SwapError>)
    requires i == |requests| < |drivers| && |start| == |drivers| && d == drivers[i]
    requires sep ==> Separate(drivers, root.holders) && Library(root.holders) == lib &&
                     Carried(lib, start, States(drivers), drivers, requests, None)
    modifies d`enabled, d`currentFrame, d.parent`sprite, d.parent.verts, d.parent.uvs
    ensures var o := DriverStep(d.frame, d.pattern, d.z, d.frameIncrement, d.startFrame, format,
                          old(d.enabled), old(d.currentFrame));
      d.enabled == o.enabled &&
      (err.None? ==> requested == o.requests && d.currentFrame == o.currentFrame) &&
      (err.Some? ==> requested != [] && requested <= o.requests &&
                     (d.currentFrame == o.currentFrame || d.currentFrame == old(d.currentFrame)))
    ensures sep ==> Separate(drivers, root.holders) && Library(root.holders) == lib &&
                    Carried(lib, start, States(drivers), drivers, requests + [requested], err)
  {
    ghost var before := States(drivers);
    requested, err := d.OnFrameChange(root, format);
    if sep {
      assert forall h :: h in root.holders ==> unchanged(h);
      var p := d.parent;
      forall k | 0 <= k < |drivers| && drivers[k].parent != p
        ensures drivers[k].parent.State() == before[k]
      {
        var q := drivers[k].parent;
        assert q.verts != p.verts && q.uvs != p.uvs;
        assert unchanged(q, q.verts, q.uvs);
      }
      CarriedStep(lib, start, before, States(drivers), drivers, requests, requested, err);
    }
  }

  /** `preFrameHandler`: every driver in turn, stopping at the first swap
      that fails. `requests` holds what each driver asked for, up to the
      failing one. */
  method PreFrameHandler(root: AtlasesHolder, drivers: seq<Driver>, format: (string, int) -> string)
    returns (err: Option<SwapError>, handled: nat, ghost requests: seq<seq<string>>)
    requires forall i, j :: 0 <= i < j < |drivers| ==> drivers[i] != drivers[j]
    modifies set d | d in drivers
    modifies set d | d in drivers :: d.parent
    modifies set d | d in drivers :: d.parent.verts
    modifies set d | d in drivers :: d.parent.uvs
    ensures handled <= |drivers| && (err.None? <==> handled == |drivers|)
    ensures |requests| == if err.None? then handled else handled + 1
    ensures forall k :: 0 <= k < |drivers| ==> drivers[k].z == old(drivers[k].z)
    ensures forall k :: 0 <= k < handled ==>
      var d := drivers[k];
      var o := DriverStep(d.frame, d.pattern, d.z, d.frameIncrement, d.startFrame, format,
                          old(d.enabled), old(d.currentFrame));
      d.enabled == o.enabled && d.currentFrame == o.currentFrame && requests[k] == o.requests
    ensures err.Some? ==>
      var d := drivers[handled];
      var o := DriverStep(d.frame, d.pattern, d.z, d.frameIncrement, d.startFrame, format,
                          old(d.enabled), old(d.currentFrame));
      d.enabled == o.enabled && (d.currentFrame == o.currentFrame || d.currentFrame == old(d.currentFrame)) &&
      requests[handled] != [] && requests[handled] <= o.requests
    ensures forall k :: handled < k < |drivers| ==>
      drivers[k].enabled == old(drivers[k].enabled) &&
      drivers[k].currentFrame == old(drivers[k].currentFrame)
    ensures old(Separate(drivers, root.holders)) ==>
      Library(root.holders) == old(Library(root.holders)) &&
      Carried(old(Library(root.holders)), old(States(drivers)), States(drivers), drivers, requests, err)
  {
    ghost var sep := Separate(drivers, root.holders);
    ghost var lib := Library(root.holders);
    ghost var start := States(drivers);
    requests := [];
    var i := 0;
    while i < |drivers|
      invariant 0 <= i <= |drivers| && |requests| == i
      invariant forall k :: 0 <= k < |drivers| ==>
        drivers[k].z == old(drivers[k].z) &&
        if k < i then
          drivers[k].Stepped(format, old(drivers[k].enabled), old(drivers[k].currentFrame), requests[k])
        else
          drivers[k].enabled == old(drivers[k].enabled) &&
          drivers[k].currentFrame == old(drivers[k].currentFrame)
      invariant sep ==> Separate(drivers, root.holders) && Library(root.holders) == lib
      invariant sep ==> Carried(lib, start, States(drivers), drivers, requests, None)
    {
      var requested, e := Turn(root, drivers, i, drivers[i], format, sep, lib, start, requests);
      requests := requests + [requested];
      if e.Some? {
        return e, i, requests;
      }
      i := i + 1;
    }
    return None, i, requests;
  }
}
