# r3f-voxels in Dafny

A model of the in-memory core of r3f-voxels, a voxel-world library for React Three Fiber.

- **The chunk store** (`createDataStore`): a world of 16 x 16 x 16 chunks, kept in a map keyed by the text `x:y:z`. Chunks are generated lazily from a generator callback. The store has voxel reads and writes by floor division, the streaming window with its hysteresis band, and export, import and clear.
- **The observable `Signal`**: one value and a set of listeners.
- **The mesher** (`voxelMesher`): it walks the centre chunk of a 3 x 3 x 3 neighbourhood. For every solid cell it emits an 8-slot record for each face whose neighbour is air: the cell, `texture * 6 + face`, and four ambient-occlusion counts. It also keeps the bounding box of the visible cells.
- **The collider merger** (`voxelColliders`): it covers the solid cells of the centre chunk with boxes. Each box grows greedily in depth (z), then height (y), then width (x), against a visited bitmap.
- **The chunk component**: how it assembles the 27-chunk neighbourhood, and how it reconciles the physics colliders with a new merger output.
- **The example palette**: `getTexture` and `getTransparent`.

Modules:

- `JsText` (jstext.dfy): the JavaScript text built-ins the core relies on: number-to-text, `split(':')` and `parseInt(s, 10)`, where NaN is possible.
- `Data` (data.dfy): the chunk store.
- `Signal` (signal.dfy): the observable.
- `VoxelMesher` (voxel_mesher.dfy): `getVoxel`, `getAO`, the face tables and `voxelMesher`.
- `VoxelColliders` (voxel_colliders.dfy): the merger and the proof that its boxes exactly partition the solid cells.
- `Chunk` (chunk.dfy): the neighbourhood build and collider reconciliation of `Chunk.tsx`.
- `Atlas` (atlas.dfy): the example palette.

Each loop in the source is a method proved equal to a specification function. That function is defined by recursion over the cells in z, y, x order: `Scan`/`Sweep` for the mesher, `Fold`/`Merged` for the merger, `Window`/`Retain` for the streaming window, `Visits` for the reconciliation. The promised properties are lemmas about those functions.

Floats are integers throughout. A face centre `x + 0.5` is recorded as the cell coordinate `x`. An occlusion value `0.2 * k` is recorded as the count `k`. A `Box3` is either `Empty` or a pair of integer corners.

The source disagrees with itself in three places. The model follows `voxelMesher` and `createDataStore` as they are written:

- src/chunk/Chunk.tsx:30 calls `voxelMesher(data, getTexture, getTransparent)` and destructures `{ opaque, transparent }`. The mesher at src/chunk/voxelMesher.ts:69-118 takes two arguments and returns `{ bounds, faces }`. The model has that two-argument mesher and no transparency split.
- src/data/DataProvider.tsx:14 passes a fourth argument, `getTransparent`, to `createDataStore`, which takes three (src/data/Data.ts:30-34).
- src/chunk/Chunk.tsx:16 reads `getTransparent` from the store, which the store never returns (src/data/Data.ts:69-148).

The streaming window keeps the source's hysteresis test exactly as written. Lines src/data/Data.ts:90 and :93 compare the key's y, not its z, against the z bounds, so a key's z never decides whether it is kept (`Data.HysteresisIgnoresZ`).

## Model

| member | source | states |
|---|---|---|
| JsText.NatToString | src/data/Data.ts:26-28 | the decimal text of a natural number is non-empty and all digits |
| JsText.Split | src/data/Data.ts:86 | `split(':')` yields at least one part |
| JsText.Texts | src/data/Data.ts:26-28 | the i-th text is the decimal text of the i-th number |
| JsText.IntToStringShape | src/data/Data.ts:26-28 | a number's text is an optional '-' then digits, and never holds ':' |
| JsText.ParseIntOfString | src/data/Data.ts:86 | `parseInt(s, 10)` of a number's text, followed by a non-digit or nothing, gives the number back |
| JsText.ParseIntSkipsSpace | src/data/Data.ts:119 | `parseInt` skips any leading white space, every Unicode space separator included, so `"\u30001"` reads 1 |
| JsText.SplitJoin | src/data/Data.ts:86 | splitting the ':'-joined texts of numbers on ':' gives back the texts |
| JsText.JoinInjective | src/data/Data.ts:26-28 | different lists of numbers have different ':'-joined texts |
| Data.ToUint8 | src/data/Data.ts:47 | storing into a `Uint8Array` keeps the value mod 256, and a value in 0..255 unchanged |
| Data.Idx | src/data/Data.ts:136 | the index `z*256+y*16+x` of a cell is below 4096 and decodes back to the cell |
| Data.IdxOfCell | src/data/Data.ts:44-46 | the running index of the generation loop and the cell it visits determine each other |
| Data.KeyRoundTrip | src/data/Data.ts:26-28 | parsing the key of an integer chunk position gives the position back |
| Data.KeyInjective | src/data/Data.ts:26-28 | distinct chunk positions have distinct keys |
| Data.LocalOf | src/data/Data.ts:132-133 | a voxel position is 16 times its chunk plus a local offset in [0,16) |
| Data.SplitUnique | src/data/Data.ts:139-140 | that chunk/offset split is the only one with the offset in [0,16) |
| Data.Generate | src/data/Data.ts:40-60 | a new chunk is unmodified, has 4096 voxels and position 16 times the chunk, and holds the generated value at every cell |
| Data.GenerateVoxels | src/data/Data.ts:41-55 | the generation loop fills exactly the generated voxel array |
| Data.GeneratedAt | src/data/Data.ts:47-51 | each generated voxel is the generator at the world position of the cell, mod 256 |
| Data.GeneratedWorld | src/data/Data.ts:41-55 | a generated voxel is 0 without a generator, and the generator's value at that world position mod 256 with one |
| Data.WriteVoxel | src/data/Data.ts:143-144 | a write marks the chunk modified, keeps its position and length, and changes only the written voxel |
| Data.MaterializeIdempotent | src/data/Data.ts:39-40 | fetching a chunk a second time changes nothing: an existing chunk is never regenerated |
| Data.GeneratedValues | src/data/Data.ts:131-136 | reading a voxel of a chunk that does not exist yet gives 0 without a generator and the generator's value with one |
| Data.SetMarksModified | src/data/Data.ts:141-143 | after a write, the owning chunk exists and is modified |
| Data.SetThenGet | src/data/Data.ts:138-147 | after `setVoxel(p, v)`, `getVoxel(p)` is v mod 256 |
| Data.SetLeavesOthers | src/data/Data.ts:138-147 | after `setVoxel(p, v)`, every other position reads as before |
| Data.SetSameChunk | src/data/Data.ts:144 | the other voxels of the written chunk are unchanged |
| Data.SetOtherChunk | src/data/Data.ts:141 | voxels of other chunks are unchanged |
| Data.ImportExportRoundTrip | src/data/Data.ts:105-128 | importing an export into an empty store restores each exported chunk: same bytes, modified, position 16 times its chunk, same `getVoxel` everywhere in it |
| Data.RowCellsFacts | src/data/Data.ts:79-81 | one row of the window is exactly the chunks of that row, each once |
| Data.LayerCellsFacts | src/data/Data.ts:78-82 | one layer of the window is exactly the chunks of that layer, each once |
| Data.BoxCellsFacts | src/data/Data.ts:77-83 | the window is exactly the chunks `origin + [min, max)`, each once |
| Data.WindowMembers | src/data/Data.ts:77-83 | a chunk is in the window exactly when it lies in `origin + [min, max)`, and the window has no duplicates |
| Data.KeysFacts | src/data/Data.ts:85 | a key is in the key list exactly when its chunk is listed, and distinct chunks give distinct keys |
| Data.RetainFacts | src/data/Data.ts:84-98 | the kept list starts with the window, has no duplicates, and holds a previous chunk exactly when its key passes the band check |
| Data.RetainIsKept | src/data/Data.ts:84-98 | previous chunks are appended after the window, in their previous order |
| Data.KeptMembers | src/data/Data.ts:97 | only previous chunks are appended |
| Data.StreamShape | src/data/Data.ts:74-99 | the new list is the window in z, y, x order followed by the kept previous chunks; it has no duplicate keys |
| Data.SingleChunkWindow | src/data/Data.ts:74-99 | a one-chunk window at the origin loads exactly `0:0:0` |
| Data.HysteresisIgnoresZ | src/data/Data.ts:87-94 | whether a previous key is dropped never depends on its z coordinate |
| Data.DefaultBandExamples | src/data/Data.ts:87-94 | with the default bounds, a far-away z is kept and a y outside the band is dropped |
| Data.RetainChunks | src/data/Data.ts:84-98 | the `forEach` over the previous keys computes the kept list |
| Data.WindowChunks | src/data/Data.ts:77-83 | the nested push loops compute the window |
| Data.PushLayer | src/data/Data.ts:78-82 | the y loop appends one layer |
| Data.PushRow | src/data/Data.ts:79-81 | the x loop appends one row |
| Data.GenerateLayer | src/data/Data.ts:45-53 | the y loop fills one layer of generated voxels |
| Data.GenerateRow | src/data/Data.ts:46-52 | the x loop fills one row of generated voxels |
| Data.DataStore.constructor | src/data/Data.ts:30-35 | a new store is empty, with the default texture callback `v - 1` when none is given |
| Data.DataStore.GetChunk | src/data/Data.ts:36-64 | `getChunk` returns the stored chunk and creates it first when missing |
| Data.DataStore.GetVoxel | src/data/Data.ts:131-137 | `getVoxel` reads the owning chunk at the local offset |
| Data.DataStore.SetVoxel | src/data/Data.ts:138-147 | `setVoxel` writes the voxel, sets the owning chunk's signal once and dispatches one change event `(p, v)` |
| Data.DataStore.LoadChunks | src/data/Data.ts:74-100 | `loadChunks` sets `loaded` to the streamed list with the origin and notifies its listeners once |
| Data.DataStore.ClearChunks | src/data/Data.ts:101-104 | `clearChunks` empties the chunk map and sets `loaded` to no chunks and no origin |
| Data.DataStore.ExportChunks | src/data/Data.ts:105-114 | `exportChunks` returns `Exported` of the chunk map: exactly one entry per modified chunk, holding its voxels |
| Data.DataStore.ImportChunks | src/data/Data.ts:115-128 | `importChunks` creates or overwrites each key as a modified chunk; only keys that existed have their signal set |
| Signal.Without | src/data/Signal.ts:27 | deleting a listener removes exactly it, keeps the list free of duplicates, and changes nothing when it is absent |
| Signal.WithoutKeepsOrder | src/data/Signal.ts:27 | deleting the listener at place k leaves the list with just that entry cut out, the others in their order |
| Signal.ConsNoDuplicates | src/data/Signal.ts:26 | a listener list stays a set |
| Signal.OccursOnce | src/data/Signal.ts:22 | each listener of the set occurs once, so it is called once per notification |
| Signal.Signal.constructor | src/data/Signal.ts:7-10 | a new signal holds its value and has no listeners |
| Signal.Signal.Set | src/data/Signal.ts:16-19 | after `set(v)`, `get()` is v and each listener is called once, in insertion order |
| Signal.Signal.Notify | src/data/Signal.ts:21-23 | `notify` calls every listener once, in order |
| Signal.Signal.Subscribe | src/data/Signal.ts:25-26 | subscribing adds the listener at the end unless it is already there |
| Signal.Signal.Unsubscribe | src/data/Signal.ts:27 | the returned closure reports whether the listener was there and cuts just that entry out of the list, the others keeping their order, so later notifications stay in subscription order |
| VoxelMesher.Wrap | src/chunk/voxelMesher.ts:42-65 | each coordinate in [-16,32) becomes a chunk offset 0..2 and a local coordinate in [0,16) |
| VoxelMesher.WrapFloor | src/chunk/voxelMesher.ts:42-65 | that split is floor division and remainder by 16 |
| VoxelMesher.GetVoxel | src/chunk/voxelMesher.ts:33-67 | a coordinate inside the chunk reads chunk 13, the centre |
| VoxelMesher.GetVoxelIndex | src/chunk/voxelMesher.ts:66 | `getVoxel` reads chunk `cz*9+cy*3+cx` at local index `z*256+y*16+x` |
| VoxelMesher.GetAO | src/chunk/voxelMesher.ts:25-31 | the count is n1 + n2 + (n3 and not both edges): at most 3, 2 for both edges, 1 for the corner alone |
| VoxelMesher.GetAOMonotone | src/chunk/voxelMesher.ts:25-31 | more occluders never give a smaller count |
| VoxelMesher.Normals | src/chunk/voxelMesher.ts:9-16 | every table vector has components in [-1,1] |
| VoxelMesher.Vertices | src/chunk/voxelMesher.ts:18-23 | the four corners are (+-1, +-1, 0) |
| VoxelMesher.TablesFacts | src/chunk/voxelMesher.ts:9-23 | the six normals are the six unit directions of `VoxelFace`, and the four corners are distinct |
| VoxelMesher.FrameAxes | src/chunk/voxelMesher.ts:9-16 | each face's normal and two edge vectors are unit axes, pairwise perpendicular |
| VoxelMesher.Scaled | src/chunk/voxelMesher.ts:99-100 | scaling an edge vector by a corner sign flips it or keeps it |
| VoxelMesher.OffsetsSmall | src/chunk/voxelMesher.ts:87-100 | every offset a face applies has components in [-1,1] |
| VoxelMesher.ProbesNear | src/chunk/voxelMesher.ts:90-104 | every neighbour and occlusion read lies in [-1,16], inside the 3 x 3 x 3 block |
| VoxelMesher.AO | src/chunk/voxelMesher.ts:101-105 | each occlusion value of a face corner is at most 3 |
| VoxelMesher.Exposures | src/chunk/voxelMesher.ts:86-91 | face g is exposed exactly when the neighbour along `normals[g][0]` is air |
| VoxelMesher.Mesh | src/chunk/voxelMesher.ts:69-118 | `voxelMesher` emits the records of the exposed faces in scan order, and the bounds of the visible cells |
| VoxelMesher.MeshScan | src/chunk/voxelMesher.ts:77-115 | the triple loop emits the scan's records and grows the bounds cell by cell |
| VoxelMesher.MeshCell | src/chunk/voxelMesher.ts:80-112 | one cell emits its exposed faces' records and, when visible, extends the bounds by its unit cube |
| VoxelMesher.MeshFace | src/chunk/voxelMesher.ts:87-107 | one face emits its record exactly when the neighbour is air |
| VoxelMesher.EmitFace | src/chunk/voxelMesher.ts:93-106 | an emitted record is the cell, the texture slot and four occlusion counts |
| VoxelMesher.NeighbourIsAir | src/chunk/voxelMesher.ts:90-91 | the visibility test is `getVoxel` of the neighbour being 0 |
| VoxelMesher.VertexAO | src/chunk/voxelMesher.ts:97-105 | one corner's value is `getAO` of its two edge cells and its diagonal cell |
| VoxelMesher.ScanRecords | src/chunk/voxelMesher.ts:77-108 | the records are those of the face list, concatenated in scan order |
| VoxelMesher.FaceListMember | src/chunk/voxelMesher.ts:77-108 | a face is listed exactly when its cell is in the chunk and the face is exposed |
| VoxelMesher.FaceListOrdered | src/chunk/voxelMesher.ts:77-86 | faces are listed in z, y, x order, then by face 0..5 |
| VoxelMesher.RecordsLayout | src/chunk/voxelMesher.ts:93-106 | `faces.length` is 8 times the number of listed faces, and slots 8i..8i+8 are the i-th face's record |
| VoxelMesher.RecordCell | src/chunk/voxelMesher.ts:93-95 | slots 0..2 of a record are its cell |
| VoxelMesher.RecordTexture | src/chunk/voxelMesher.ts:85-96 | slot 3 is `getTexture(voxel, face, isTop) * 6 + face`, where `isTop` holds when the cell above is air |
| VoxelMesher.RecordAO | src/chunk/voxelMesher.ts:97-105 | slots 4..7 are the corners' occlusion counts in `vertices` order |
| VoxelMesher.NoFacesOfAir | src/chunk/voxelMesher.ts:81-83 | an air cell emits nothing |
| VoxelMesher.CellFacesMember | src/chunk/voxelMesher.ts:86-91 | a cell lists exactly its exposed faces |
| VoxelMesher.CellFacesOrdered | src/chunk/voxelMesher.ts:86 | a cell's faces are listed in face order |
| VoxelMesher.IsolatedVoxel | src/chunk/voxelMesher.ts:86-108 | a solid cell with air on all sides emits six records, faces 0..5 |
| VoxelMesher.EnclosedVoxel | src/chunk/voxelMesher.ts:86-108 | a cell with solid cells on all sides emits none |
| VoxelMesher.VisibleIff | src/chunk/voxelMesher.ts:84-92 | `isVisible` holds exactly when some face is exposed |
| VoxelMesher.BoundsEmpty | src/chunk/voxelMesher.ts:73-112 | the bounds stay empty exactly when no cell is visible |
| VoxelMesher.BoundsCover | src/chunk/voxelMesher.ts:109-112 | the bounds cover the unit cube of every visible cell |
| VoxelMesher.BoundsLeast | src/chunk/voxelMesher.ts:109-112 | any box covering those cubes covers the bounds |
| VoxelColliders.VoxelColliders | src/chunk/voxelMesher.ts:120-197 | `voxelColliders` returns exactly the merger's boxes, reads only chunk 13, and leaves the bitmap marking exactly the solid cells |
| VoxelColliders.MergeScan | src/chunk/voxelMesher.ts:126-194 | the z loop carries out the merge over the whole chunk |
| VoxelColliders.MergeLayer | src/chunk/voxelMesher.ts:128-193 | the y loop merges one layer |
| VoxelColliders.MergeRow | src/chunk/voxelMesher.ts:129-192 | the x loop merges one row |
| VoxelColliders.ColliderAt | src/chunk/voxelMesher.ts:130-191 | one cell is skipped when air or marked, and otherwise gets one grown box, whose cells are marked |
| VoxelColliders.Blocked | src/chunk/voxelMesher.ts:142-146 | the stop test holds at the chunk edge, an air cell or a marked cell |
| VoxelColliders.GrowAt | src/chunk/voxelMesher.ts:138-191 | the box grown at a cell is its depth, then height, then width |
| VoxelColliders.FindDepth | src/chunk/voxelMesher.ts:141-150 | the depth loop stops at the first blocked cell along z |
| VoxelColliders.FindHeight | src/chunk/voxelMesher.ts:152-163 | the height loop shrinks the height to the first blocked cell of every column |
| VoxelColliders.HeightColumn | src/chunk/voxelMesher.ts:154-162 | one column's pass shrinks the height to its first blocked cell |
| VoxelColliders.FindWidth | src/chunk/voxelMesher.ts:165-178 | the width loop shrinks the width to the first blocked cell of every row of the slab |
| VoxelColliders.WidthLayerScan | src/chunk/voxelMesher.ts:167-177 | one layer's pass shrinks the width over its rows |
| VoxelColliders.WidthRow | src/chunk/voxelMesher.ts:168-176 | one row's pass shrinks the width to its first blocked cell |
| VoxelColliders.MarkBox | src/chunk/voxelMesher.ts:180-186 | marking sets exactly the box's cells, on top of those already marked |
| VoxelColliders.MarksSolid | src/chunk/voxelMesher.ts:180-186 | the final bitmap marks exactly the solid cells |
| VoxelColliders.DepthFacts | src/chunk/voxelMesher.ts:141-150 | the depth is at least 1, stays in the chunk, and every cell it spans is open |
| VoxelColliders.HeightCutFacts | src/chunk/voxelMesher.ts:155-161 | one column's cut never grows the height and leaves only open cells below it |
| VoxelColliders.HeightFacts | src/chunk/voxelMesher.ts:152-163 | the height is in 1..16-y and every cell of the grown rectangle is open |
| VoxelColliders.WidthCutFacts | src/chunk/voxelMesher.ts:169-175 | one row's cut never grows the width and leaves only open cells before it |
| VoxelColliders.WidthLayerFacts | src/chunk/voxelMesher.ts:167-177 | one layer keeps the width in 1..w, with only open cells inside |
| VoxelColliders.WidthFacts | src/chunk/voxelMesher.ts:165-178 | the width is in 1..16-x and every cell of the grown box is open |
| VoxelColliders.GrowBoxFacts | src/chunk/voxelMesher.ts:138-191 | a grown box starts at its cell, has positive sizes, lies inside the chunk, and holds only open cells |
| VoxelColliders.StepSkips | src/chunk/voxelMesher.ts:131-136 | an air or already-marked cell changes nothing |
| VoxelColliders.StepKeeps | src/chunk/voxelMesher.ts:130-191 | one cell keeps the merge invariant: the boxes fit, are disjoint and increasing, cover the solid cells scanned so far, and cover no air |
| VoxelColliders.MergedInv | src/chunk/voxelMesher.ts:126-194 | the invariant holds after any number of cells |
| VoxelColliders.CollidersFit | src/chunk/voxelMesher.ts:188-191 | every box has positive sizes and lies within [0,16)^3 |
| VoxelColliders.CollidersCover | src/chunk/voxelMesher.ts:124-191 | a cell lies in some box exactly when it is solid |
| VoxelColliders.CollidersDisjoint | src/chunk/voxelMesher.ts:124-191 | no two boxes share a cell |
| VoxelColliders.CollidersInOrder | src/chunk/voxelMesher.ts:127-191 | box starts appear in z, y, x scan order |
| VoxelColliders.EmptyChunk | src/chunk/voxelMesher.ts:130-136 | an all-air chunk yields no box |
| VoxelColliders.SolidChunk | src/chunk/voxelMesher.ts:141-191 | an all-solid chunk yields exactly one box, at (0,0,0) with size (16,16,16) |
| VoxelColliders.ScanResult | src/chunk/voxelMesher.ts:126-194 | the nested loops' fold is the merger's boxes, with exactly the solid cells visited |
| VoxelColliders.ChunkFoldIs | src/chunk/voxelMesher.ts:127-129 | the z, y, x nesting visits cell `z*256+y*16+x` as the n-th step |
| Chunk.BuildNeighbourhood | src/chunk/Chunk.tsx:18-25 | the push loop builds the 27-chunk block around the chunk |
| Chunk.NeighbourAt | src/chunk/Chunk.tsx:18-25 | entry `(z+1)*9+(y+1)*3+(x+1)` is the chunk at `chunkPosition + (x,y,z)` |
| Chunk.CentreIsChunk | src/chunk/Chunk.tsx:26 | `data[13]` is the chunk itself |
| Chunk.NeighboursFit | src/chunk/Chunk.tsx:18-25 | the block has 27 chunks the mesher can read |
| Chunk.NeighbourVoxel | src/chunk/Chunk.tsx:18-25 | `getVoxel` on the block reads chunk `chunkPosition + floor(p/16)` at `p mod 16`: the order matches `getVoxel`'s indexing |
| Chunk.PhysicsWorld.CreateCollider | src/chunk/Chunk.tsx:46-58 | creating a collider logs one creation with a fresh handle |
| Chunk.PhysicsWorld.RemoveCollider | src/chunk/Chunk.tsx:64-66 | removing a collider logs one removal |
| Chunk.Reconcile | src/chunk/Chunk.tsx:40-66 | the effect's new map and its world calls are those of the reconciliation |
| Chunk.ReconcileColliders | src/chunk/Chunk.tsx:39-67 | the effect keys every box as position then size, joined with ':', and reconciles |
| Chunk.RemoveAll | src/chunk/Chunk.tsx:68-70 | unmounting removes every collider of the map, in insertion order |
| Chunk.GetPresent | src/chunk/Chunk.tsx:44-45 | `get` finds a collider exactly when its key is present |
| Chunk.GetPut | src/chunk/Chunk.tsx:62 | after `set(k, c)`, `get(k)` is c and every other key reads as before |
| Chunk.PutKeys | src/chunk/Chunk.tsx:62 | `set` adds just its key and keeps the keys unique |
| Chunk.DeleteWithout | src/chunk/Chunk.tsx:60 | `delete` removes just that key, keeping the other entries in order |
| Chunk.VisitsKeys | src/chunk/Chunk.tsx:42-63 | the new map's keys are exactly the box keys; what is left of the old map is its entries whose keys no box has |
| Chunk.VisitsReuse | src/chunk/Chunk.tsx:44-62 | a box whose key was present keeps the old collider; a collider is created, with a fresh handle, only for an absent key, in box order |
| Chunk.AbsentKeys | src/chunk/Chunk.tsx:45-58 | the boxes created for are exactly those whose keys were absent from the old map |
| Chunk.NewHandles | src/chunk/Chunk.tsx:46-62 | the j-th box created for is stored under its own key with the j-th fresh handle, the one its creation carries |
| Chunk.ReconcileFacts | src/chunk/Chunk.tsx:39-67 | after reconciliation: the new key set equals the box keys; reused keys keep their colliders; creations are exactly the absent keys, each stored under its own key with the handle its creation carries; the removals are exactly the old colliders whose keys no box has, in old order |
| Chunk.ReconcileAgain | src/chunk/Chunk.tsx:39-67 | reconciling the same boxes again creates and removes nothing |
| Chunk.ColliderKeyInjective | src/chunk/Chunk.tsx:43 | different boxes have different keys |
| Chunk.CollidersKeysUnique | src/chunk/Chunk.tsx:42-43 | the merger's boxes have pairwise different keys, so none overwrites another in the map |
| Atlas.GetTexture | example/src/atlas.ts:130-148 | `getTexture` succeeds exactly for dirt, glass, noise and digital, so air and unknown voxels throw; every result is a layer in 0..5 |
| Atlas.GetTransparent | example/src/atlas.ts:150-157 | `getTransparent(v)` holds exactly when v is glass |
| Atlas.DirtFaces | example/src/atlas.ts:132-139 | dirt is grass on top when nothing is above it, grass on the sides when nothing is above it, and dirt otherwise |
| Atlas.UniformFaces | example/src/atlas.ts:140-145 | glass, noise and digital have their own texture on every face, whatever is above |
| Atlas.TransparentIsGlass | example/src/atlas.ts:140-141 | the transparent voxel is drawn with the glass layer |
| Atlas.TexturesDistinct | example/src/atlas.ts:13-20 | different voxels never share a texture layer |

## Left out

- Floating point: face centres, occlusion values, `Box3` corners and the collider's half-extent translation (src/chunk/Chunk.tsx:46-58) are integers or are left out.
- The shared objects are not modelled, and nothing is proved about sharing:
  - the `auxBox` that every `voxelMesher` call returns (src/chunk/voxelMesher.ts:4, 73, 117);
  - the `voxels` array shared after `chunk.set({ ...data })` and by `exportChunks` (src/data/Data.ts:110, 145).
- The `Float32Array` copy of the face list is a sequence of integers.
- The module-level bitmap `map` is the `marks` array parameter of `VoxelColliders.VoxelColliders`, cleared on entry, with `true` for 1. That it persists between calls is not modelled.
- The mesher and the merger require a neighbourhood of 27 chunks of 4096 voxels each (`VoxelMesher.Neighbourhood`). The source would read `undefined` for a shorter list. The component builds such a list whenever every chunk it fetches holds 4096 voxels (`Chunk.NeighboursFit`). Generated chunks always do (`Data.Generate`); a chunk imported with a shorter array does not, since `importChunks` stores whatever array it is given.
- `getTexture` and the generator are total function parameters. `Atlas.GetTexture` throws (`None`) for voxels outside its enum. The mesher is not run with it, because that would need the partial callback inside the mesh specification.
- `getChunk` accepts a `Vector3` or three numbers. The model takes an integer chunk position; a position parsed from an imported key can be NaN and is kept as `Data.NumVec3`.
- The `loaded` signal holds chunk positions, not their key texts. `Data.Keys` and `Data.KeysFacts` relate the two.
- The change `EventDispatcher` and its listeners are reduced to the store's event log. `addEventListener`/`removeEventListener`, `getPhysics`, `DataContext` and `useData`'s missing-provider throw are React and three.js glue.
- `Signal.use` (`useSyncExternalStore`) is React glue.
- Listener calls are recorded as ids; what a listener does is not modelled.
- Chunk.tsx: the React hooks, `React.memo`, the refs and the effect dependencies are left out, and so is the mesh effect (lines 29-33), which relies on the mesher signature noted above.
- The chunk-key parse at src/chunk/Chunk.tsx:17 is `Data.KeyPosition`, covered by `Data.KeyRoundTrip`. `Chunk.BuildNeighbourhood` takes the parsed integer position, and `chunkAt` stands for the value `getChunk(...).use()` returns for each position.
- The physics world is an event log of creations and removals. A collider handle is a counter the world advances on each creation; the rapier descriptor is not modelled.
- Chunk.ReconcileFacts: stated for distinct box keys, which `Chunk.CollidersKeysUnique` proves for every merger output. For duplicate keys only `Chunk.VisitsKeys` is stated.
- ChunkMaterial.ts, ChunkMesh.ts, useMaterials.ts, Voxels.tsx, DataProvider.tsx and the example application are rendering, UI and glue, and are not part of this model. So are the canvas and texture drawing in example/src/atlas.ts.
