# Cheetah atlas importer — a verified model

This project models the core of `CheetahAtlasImporter.py`, a Blender add-on.
The add-on imports a sprite atlas written by the Cheetah texture packer as one
textured mesh per frame. It also lets a sprite mesh switch to another frame,
either by hand or through "driver" empties whose height changes with the
animation frame.

The modules mirror the script's parts:

- `Text`: `unix_slashes`, plus Python's `str.split` on one character and its inverse `join`.
- `Numbers`: the field syntax `int(float(field))` accepts. A field is read as the exact value of its decimal text, truncated toward zero; the rounding to a double that Python does first is not modelled.
- `AtlasRecord`: one line of a `.atlas` file. It is either the `textures:` header or a tab-separated frame record.
- `Geometry`: the six vertices and four UVs `read_cheetah_atlas` builds for a frame, rotated or not.
- `Anchor`: the anchor-point arithmetic of `getAnchorPointBounds`, `getAnchorPointActual` and `setAnchorPoint`, as functions on vertex lists.
- `Scene`:
  - the mesh objects as a class whose vertex and UV buffers are arrays;
  - the per-atlas holders, and the `atlases` object above them;
  - the anchor-point methods that mutate a mesh, and the set-anchor operator's `execute` and `invoke`;
  - `setSpriteFrame`, `setSpriteFrameById` and the set-frame operator, including the `for … break` lookup that falls through to the last child;
  - the same swap on values (`Swap`), so that several swaps can be composed.
- `Importer`: `read_cheetah_atlas` from the already-imported check through the frame loop. Each new frame is stacked on top of the previous one.
- `Drivers`: the driver empties and `preFrameHandler`'s state machine.

Inputs the script reads from Blender become parameters:
- the file's lines;
- the image size;
- `cheetah_pixel_per_unit`;
- the atlas name derived from the file path;
- a driver's height;
- the `%` formatting of a frame pattern.

## Model

| member | source | states |
|---|---|---|
| Text.UnixSlashes | CheetahAtlasImporter.py:7-8 | every backslash becomes a slash, every other character is kept, the length is unchanged, and no backslash remains |
| Text.UnixSlashesIdempotent | CheetahAtlasImporter.py:7-8 | applying `unix_slashes` twice gives the same path as applying it once |
| Text.JoinSplit | CheetahAtlasImporter.py:238 | joining the pieces of `line.split('\t')` with the separator gives back the line |
| Text.SplitJoin | CheetahAtlasImporter.py:238 | splitting a join of separator-free pieces gives back exactly those pieces |
| Numbers.TruncateTowardZero | CheetahAtlasImporter.py:240-247 | a field reads as its exact decimal value truncated toward zero (without Python's rounding to a double first): below it by less than 1 for non-negative values, above it by less than 1 for negative ones |
| Numbers.ParseRender | CheetahAtlasImporter.py:240-247 | every well-formed decimal numeral reads back as itself |
| Numbers.ParseIntText | CheetahAtlasImporter.py:240-247 | the decimal text of any integer reads back as that integer |
| AtlasRecord.NumberFields | CheetahAtlasImporter.py:239-247 | fields are read in order: success iff every field 1..8 exists and reads as a number, with those values; otherwise the first failing index, as a missing field (`IndexError`) or a bad number (`ValueError`) |
| AtlasRecord.ParseLine | CheetahAtlasImporter.py:237 | a line is the header exactly when it starts with `textures:` |
| AtlasRecord.ParseLineFrame | CheetahAtlasImporter.py:236-254 | a non-header line gives a frame iff it has at least nine fields and fields 1..8 read as numbers; the record holds field 0 as its name, the truncated numbers, and `rotated` iff a tenth field equals `r` |
| AtlasRecord.ShortLineFails | CheetahAtlasImporter.py:238-247 | a non-header line with fewer than nine fields is always an error |
| AtlasRecord.ParseFormatLine | CheetahAtlasImporter.py:236-254 | writing a record as a tab-separated line and parsing it gives back the same record, for names without tabs that do not start with `textures:` |
| Geometry.QuadIsRectangle | CheetahAtlasImporter.py:254-272 | the first four vertices form an axis-aligned rectangle in y = 0, clockwise from the top left, `width` by `height` pixels, or `height` by `width` when rotated |
| Geometry.RotatedIsTransposed | CheetahAtlasImporter.py:266-272 | a rotated frame's vertices are those of an unrotated frame with the x/y offsets swapped and width/height swapped |
| Geometry.AuxPointsFixed | CheetahAtlasImporter.py:254-272 | vertices 4 and 5 are the origin and `(origW, 0, origH)` whether or not the frame is rotated |
| Geometry.QuadSize | CheetahAtlasImporter.py:255-258 | after scaling by `unitPerPixel` the quad measures `width * unitPerPixel` by `height * unitPerPixel` (swapped when rotated) and stays in y = 0 |
| Geometry.RotatedUvsShifted | CheetahAtlasImporter.py:262-277 | the rotated frame's UV list is the unrotated list started one corner later |
| Geometry.UvsInUnitSquare | CheetahAtlasImporter.py:262-265 | a frame rectangle lying inside the image gets all four UVs inside the unit square |
| Geometry.TextureFollowsCorners | CheetahAtlasImporter.py:254-277 | each quad corner is textured from the image pixel at the same place in the packed rectangle: straight for an unrotated frame, a quarter turn for a rotated one |
| Anchor.BoundsContain | CheetahAtlasImporter.py:41-49 | the bounds fold contains every vertex's x and z |
| Anchor.BoundsAttained | CheetahAtlasImporter.py:41-49 | for a non-empty mesh within the sentinels, every side of the bounds is attained by some vertex |
| Anchor.BoundsIsTight | CheetahAtlasImporter.py:41-49 | the bounds are the unique box that contains all vertices and whose sides are all attained |
| Anchor.TightBoxUnique | CheetahAtlasImporter.py:41-49 | two boxes that both contain a vertex list and attain every side are equal |
| Anchor.BoundsShift | CheetahAtlasImporter.py:55-64 | translating every vertex by (tx, tz) translates the bounds by the same amount |
| Anchor.TranslationCentresAnchor | CheetahAtlasImporter.py:60-61 | the translation moves the point at fraction `point` of the bounds to the origin |
| Anchor.ActualLocatesOrigin | CheetahAtlasImporter.py:51-53 | the actual anchor is `p` exactly when the box is non-degenerate and the origin lies at fraction `p` of its width and height; a degenerate box (a division by zero in the source) gives none |
| Anchor.ActualAfterTranslation | CheetahAtlasImporter.py:51-64 | after shifting a box by the translation for `p`, its actual anchor is `p` |
| Anchor.SetAnchorThenActual | CheetahAtlasImporter.py:55-64 | after `setAnchorPoint(p)` on a mesh with non-degenerate bounds, `getAnchorPointActual` returns `p` |
| Anchor.ReapplyIsNoOp | CheetahAtlasImporter.py:55-64 | setting the same anchor a second time translates by zero |
| Anchor.ActualIsNoOp | CheetahAtlasImporter.py:84-88 | setting the anchor to the mesh's actual anchor, as the operator's `invoke` does when none is stored, translates by zero |
| Anchor.PixelsInSprite | CheetahAtlasImporter.py:254-272 | when the trimmed rectangle lies inside the untrimmed sprite, every vertex lies in `[0, origW] × [0, origH]` pixels |
| Anchor.FrameAnchorBox | CheetahAtlasImporter.py:254-272 | for such a frame, the anchor bounds of the imported mesh are exactly `(0, 0)`–`(origW, origH)` scaled by `unitPerPixel` |
| Anchor.FrameActualAnchor | CheetahAtlasImporter.py:254-272 | a freshly imported frame with a positive size has actual anchor (0, 0) |
| Anchor.AsWrittenAgrees | CheetahAtlasImporter.py:41-49 | the fold with the source's initial `min[1]` agrees with the corrected fold whenever some vertex has z ≤ 99999999 |
| Anchor.AsWrittenMissesMinZ | CheetahAtlasImporter.py:43 | for vertices at z = 1e8 and 2e8, the fold as written reports minimum z 99999999, which no vertex has; the corrected fold reports 1e8 |
| Scene.FrameIdText | CheetahAtlasImporter.py:332 | a sprite id built from separator-free atlas and frame names splits back into exactly those two names |
| Scene.MeshObject.FrameId | CheetahAtlasImporter.py:363-364 | a frame object's id splits into its holder's name and its own name |
| Scene.MeshObject.GetBounds | CheetahAtlasImporter.py:41-49 | the loop over the vertex buffer returns the bounds fold of the vertices |
| Scene.MeshObject.GetAnchorPointActual | CheetahAtlasImporter.py:51-53 | returns the actual anchor of the current vertices' bounds, or none on a degenerate box |
| Scene.MeshObject.SetAnchorPoint | CheetahAtlasImporter.py:55-64 | every vertex is shifted by the translation computed from the old bounds; for a non-empty mesh inside the sentinels before and after, the new bounds are the old ones shifted by that translation, and when the old bounds are not degenerate `p` becomes the actual anchor |
| Scene.MeshObject.PersistAnchorPoint | CheetahAtlasImporter.py:37-39 | stores both coordinates; reading them back gives the point |
| Scene.MeshObject.StoredAnchor | CheetahAtlasImporter.py:90-92 | nothing when the first key is missing; the pair when both keys exist; a key error when only the first exists |
| Scene.MeshObject.RestoreAnchorPoint | CheetahAtlasImporter.py:95-97 | re-applies a stored anchor, leaves the mesh alone when none is stored, and fails on a missing second key |
| Scene.MeshObject.ApplyAnchorPoint | CheetahAtlasImporter.py:74-77 | moves every vertex by the translation for `p` and stores `p`; for a mesh within the sentinels whose bounds are not degenerate, `p` becomes the actual anchor and restoring it right away moves nothing |
| Scene.MeshObject.InvokeSetAnchorPoint | CheetahAtlasImporter.py:84-88 | succeeds iff an anchor is stored, or none is and the mesh has an actual anchor; a stored anchor is re-applied and kept; otherwise the actual anchor is stored and the mesh does not move; on failure nothing changes |
| Scene.AtlasNames | CheetahAtlasImporter.py:338-339 | the holders' names, in order |
| Scene.FrameNames | CheetahAtlasImporter.py:340-341 | the frames' names, in order |
| Scene.Locate | CheetahAtlasImporter.py:338-341 | `for … break`: the first matching index; the last index when nothing matches; none only for an empty list |
| Scene.FindByName | CheetahAtlasImporter.py:338-341 | the loop with `break` returns the same index as `Locate` |
| Scene.LocateFirst | CheetahAtlasImporter.py:338-341 | the first occurrence of a name is the one found |
| Scene.LocateMiss | CheetahAtlasImporter.py:338-341 | a name that is not present falls through to the last element |
| Scene.Library | CheetahAtlasImporter.py:336-341 | the atlases as values: for each holder in order, its name and its frames' names, vertices, UVs and ids; the names agree with the holders' |
| Scene.Lookup | CheetahAtlasImporter.py:336-341 | fails for want of an atlas iff there is none; a found frame belongs to one of the atlases, which carries the requested name when some atlas does, and the frame carries the requested frame name when that atlas has it; the malformed-id failure comes only from an id without `\|`, and success only from one with it |
| Scene.LookupSucceeds | CheetahAtlasImporter.py:336-341 | the lookup succeeds exactly when there is an atlas, the atlas the search stops at has frames, and the id has a frame part |
| Scene.FindFrame | CheetahAtlasImporter.py:336-341 | the two `for … break` loops over the holders and their children find the frame `Lookup` gives, or fail as it does |
| Scene.IdLocatesFrame | CheetahAtlasImporter.py:332-341 | an id made from the first atlas and frame with those names splits back to names that `Locate` finds at those positions |
| Scene.Overwrite | CheetahAtlasImporter.py:299-300 | destination entries below the source's length take the source's values; the rest keep their own |
| Scene.CopyInto | CheetahAtlasImporter.py:299-300 | copies source entries over the destination by index |
| Scene.SetSpriteFrame | CheetahAtlasImporter.py:298-332 | copies the vertices, then the UVs, then records the sprite id. With more source than destination vertices it fails after the vertex copy; with fewer source UVs than destination UVs it fails before touching the UVs or the sprite id. The source mesh is unchanged |
| Scene.ShowFrame | CheetahAtlasImporter.py:298-332 | on values: keeps the stored anchor and the buffer sizes; on success, or on a missing second anchor key, the sprite is the frame's id and the UVs are the frame's first ones; a failed copy leaves the UVs and the sprite id as they were |
| Scene.Swap | CheetahAtlasImporter.py:334-343 | a failed lookup changes nothing and reports its error; a swap that changes the UVs or the sprite id has gone through the copy, and then the sprite shows the found frame's id and UVs; it fails afterwards only on a stored first anchor key without the second |
| Scene.LastSwapWins | CheetahAtlasImporter.py:334-343 | for frames of the mesh's own size, a successful swap followed by another ends where the second alone would |
| Scene.SwapKeepsAnchor | CheetahAtlasImporter.py:342-343 | after a successful swap, a stored anchor is again the mesh's actual anchor, for a non-empty frame inside the sentinels (before and after the shift) whose box has nonzero width and height |
| Scene.SwapFrom | CheetahAtlasImporter.py:342-343 | `setSpriteFrame` then `restoreAnchorPoint` change the mesh exactly as `ShowFrame` states |
| Scene.IdParts | CheetahAtlasImporter.py:335 | the atlas name is the piece before the first `\|`; the frame name exists iff there is a second piece, and is that piece |
| Scene.SwapTo | CheetahAtlasImporter.py:336-343 | the mesh's new vertices, UVs, sprite id and stored anchor, and the error, are those `Swap` gives for the atlases and the mesh as they were; for a mesh that is no atlas frame and shares no buffer with one, the atlases are unchanged |
| Scene.SetSpriteFrameById | CheetahAtlasImporter.py:334-343 | the same, for the atlas and frame that the id names |
| Scene.ExecuteSetSpriteFrame | CheetahAtlasImporter.py:382-391 | the same, for the atlas and frame chosen in the operator |
| Importer.PlanStopsAtError | CheetahAtlasImporter.py:236-254 | once a line has raised, later lines change nothing |
| Importer.PlanCountsFrames | CheetahAtlasImporter.py:236-254 | with no malformed line and nonzero divisors, every non-header line makes exactly one frame and there is no error |
| Importer.HasPath | CheetahAtlasImporter.py:202-203 | found iff some existing atlas holder has this file path |
| Importer.TopZIsMax | CheetahAtlasImporter.py:283 | `bound_box[6][2]` is the largest vertex z, and some vertex attains it |
| Importer.TopOfMesh | CheetahAtlasImporter.py:283 | the loop over the vertex buffer returns that largest z |
| Importer.FrameTop | CheetahAtlasImporter.py:283 | a frame's top is at least 0 and at least `origH * unitPerPixel` |
| Importer.StackRises | CheetahAtlasImporter.py:283 | running sums of non-negative heights never decrease |
| Importer.ImportedFramesRise | CheetahAtlasImporter.py:282-285 | for the frames of one import, the stacked height of a later frame is never below an earlier one's |
| Importer.StackedPlacement | CheetahAtlasImporter.py:282-285 | the k-th imported object sits at the sum of the tops of the frames before it |
| Importer.StackedRises | CheetahAtlasImporter.py:282-285 | a later imported object is never lower than an earlier one |
| Importer.StackedAppend | CheetahAtlasImporter.py:283 | placing a new object on top of the last one keeps the stacking invariant |
| Importer.ImportsAppend | CheetahAtlasImporter.py:279-285 | adding the next frame's object, built from its record and placed on top of the last object, extends the import by that record |
| Importer.NewFrame | CheetahAtlasImporter.py:279-285 | a fresh object with the frame's name, the atlas as parent, and the frame's vertices and UVs; at height 0 for the first frame, otherwise on top of the previous object |
| Importer.AddFrame | CheetahAtlasImporter.py:279-285 | appends that object to the holder's children and keeps the import invariant |
| Importer.ImportFrames | CheetahAtlasImporter.py:234-286 | the error is the first one the lines raise; the objects built are exactly the frames before it, named, parented, shaped and stacked |
| Importer.ImportAtlas | CheetahAtlasImporter.py:201-286 | an already-imported path changes nothing; otherwise a new holder with this path and name is appended, and its frames are built as `ImportFrames` states |
| Drivers.SingleStep | CheetahAtlasImporter.py:567-573 | swaps iff disarmed and above 1; ends armed iff above 1, or already armed and exactly at 1 |
| Drivers.HeldSwapsOnce | CheetahAtlasImporter.py:567-573 | while the height never drops below 1, a disarmed driver swaps exactly once if it ever rises above 1, and an armed one never swaps |
| Drivers.SwapsNeedReleases | CheetahAtlasImporter.py:567-573 | over any run of heights, the number of swaps, plus one if the driver ends disarmed, is at most the number of drops below 1, plus one if it started disarmed |
| Drivers.PatternStep | CheetahAtlasImporter.py:575-580 | above 1 the frame number becomes `floor(z - 1) * increment + start`; a swap to it is asked iff that differs from the current one |
| Drivers.PatternBand | CheetahAtlasImporter.py:577 | every height in `[1 + k, 2 + k)` selects frame `k * increment + start` |
| Drivers.PatternSettles | CheetahAtlasImporter.py:575-580 | a second step at the same height asks for no swap |
| Drivers.SingleRequests | CheetahAtlasImporter.py:567-570 | the single-frame branch asks for its frame exactly when it is disarmed and above 1 |
| Drivers.DriverStep | CheetahAtlasImporter.py:565-580 | a driver's step changes `enabled` only through the single-frame branch; at most two swaps are asked; a driver with neither key does nothing |
| Drivers.LowDriverIsQuiet | CheetahAtlasImporter.py:565-580 | a driver at height 1 or below asks for no swap and keeps its frame number |
| Drivers.SwapAll | CheetahAtlasImporter.py:562-580 | the swaps a run of requests makes on one sprite, stopping at the first that raises: sizes and stored anchor kept, no requests change nothing |
| Drivers.SwapAllAppend | CheetahAtlasImporter.py:562-580 | carrying out two runs of requests one after the other is carrying out both in one run, stopping at the first error |
| Drivers.OnlyLastSwapCounts | CheetahAtlasImporter.py:562-580 | when every requested frame fits the sprite and no anchor key is missing, a run of swaps ends as the last one alone would |
| Drivers.Driver.constructor | CheetahAtlasImporter.py:504-510 | a new single-frame driver, parented to the sprite, not armed |
| Drivers.Driver.SingleBranch | CheetahAtlasImporter.py:567-573 | updates `enabled` per `SingleStep`; the parent sprite is swapped as `Swap` states to the requested frame, and untouched without a request |
| Drivers.Driver.PatternBranch | CheetahAtlasImporter.py:575-580 | updates `currentFrame` per `PatternStep` and swaps the parent, as `Swap` states, to the formatted frame id when asked |
| Drivers.Driver.OnFrameChange | CheetahAtlasImporter.py:565-580 | one driver's whole step agrees with `DriverStep`; a failed swap ends the step after a prefix of the requests; for a sprite apart from the atlas frames, the sprite ends as `SwapAll` of the requests and the atlases are unchanged |
| Drivers.CarriedStep | CheetahAtlasImporter.py:564-580 | one more driver's requests, carried out on its own sprite, extend the requests carried out so far on every sprite |
| Drivers.Turn | CheetahAtlasImporter.py:565-580 | one driver's step, as `DriverStep` states; with separate sprites, every sprite is the result of the requests made of it so far, and the atlases are unchanged |
| Drivers.PreFrameHandler | CheetahAtlasImporter.py:562-580 | drivers are handled in order. All are handled iff no swap fails. Every handled driver has advanced per `DriverStep`; a failing driver has its new `enabled` and made a non-empty prefix of its requests; later drivers and every height are untouched; with separate sprites, the atlases are unchanged, each sprite ends as `SwapAll` of the requests made of it, in order, and only the failing driver's sprite reports the error |

## Left out

- Blender's API is not part of this model:
  - mesh creation through bmesh (`createMesh`);
  - materials, textures and the image (lines 143-179, 221-233 and 302-330);
  - object layers and scene updates;
  - panels, menus, operator registration and properties.
- Reading the file and `splitlines` are not modelled: the atlas lines are an input. So are the image size and the atlas holder's name.
- `os.path.relpath` is left out, and so is the `except` branch's call to the undefined `unix_slashevis` (line 214). The holder's name is an input.
- Creating the `atlases` object (lines 193-198) is left out. The model starts from an existing one.
- `Numbers.ParseDecimal`: accepts only `[+|-]digits[.digits]`. Python's `float` also takes surrounding whitespace, exponents, `inf`, `nan` and underscores; these are refused here.
- Floating point: vertex positions, UVs and heights are exact reals, with no rounding.
- `Importer.PlanStep`: a zero `cheetah_pixel_per_unit` or a zero image side is a `ZeroDivisionError` in the source. It is modelled as an error that stops the import, as a raised exception does.
- `Drivers.PatternFrame`: `round` is left out. The frame increment and start are taken as integers, for which `round` changes nothing.
- `%` formatting of a frame pattern is left out. It is a function parameter.
- A driver missing `enabled`, `frameIncrement`, `startFrame` or `currentFrame` raises a `KeyError` in the source. Such drivers are left out: the model's driver always has those fields.
- `Drivers.Driver.SingleBranch`: writes `enabled` after the swap rather than before it. The swap never reads the driver, so both orders end in the same state.
- `Drivers.Driver.PatternBranch`: writes `currentFrame` after the swap, for the same reason.
- `Scene.MeshObject.GetBounds`: runs the corrected scan, with the initial minimum z `999999999.0` like the other sentinels, rather than the `99999999.0` of line 43 (see Findings). `Anchor.AsWrittenAgrees` shows both agree whenever some vertex has z ≤ 99999999.
- `Numbers.ParseTruncated`: reads a field as the exact value of its decimal text. Python's `float` first rounds it to the nearest double, so a field such as `0.99999999999999999` reads as 1 there and as 0 here.
- `Drivers.Driver.parent` is always a sprite mesh. A driver without a parent makes the swap fail at line 300 of the source; such drivers are left out.
- `Drivers.Driver.OnFrameChange`: the effect on the sprite, as `SwapAll` of the requests, is stated only for a sprite that is no atlas frame and shares no buffer with one.
- `Drivers.PreFrameHandler`: the effect on the sprites is stated only when they are separate: none is or shares a buffer with an atlas frame, and two distinct sprites share no buffer.
- The order of `bpy.data.objects` and of an object's children is taken as given. The model keeps it as sequences.
- A frame's parent is kept by name only.
- The operator that adds a sprite (lines 399-474) is not part of this model. Neither is the add-driver operator's choice of the selected objects (lines 476-502). Its result is the `Driver` constructor.
- `AddClickAnimationOperator` (keyframe insertion, lines 524-552) and `menu_func` are not part of this model.
- The `invoke` of the set-frame operator (lines 393-397) is left out. It parses the current sprite id into local variables that it never uses.
- `Scene.SetSpriteFrame` does not model the copy through bmesh loops (lines 312-315). It takes the UVs as one array copied by index.

## Findings

| source | as written | input that shows it | evidently intended | confidence | as-written member | corrected member |
|---|---|---|---|---|---|---|
| CheetahAtlasImporter.py:43 | the initial minimum z is `99999999.0`, one digit shorter than the other three sentinels | a mesh whose vertices are all above z = 99999999, for example at z = 1e8 and z = 2e8: the reported minimum z is 99999999, which no vertex has | `999999999.0`, like the other sentinels | not executed | Anchor.AsWrittenMissesMinZ | Anchor.BoundsAttained |
