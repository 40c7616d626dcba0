# GlowingQuad mesh topology in Dafny

This project models the integer side of the GlowingQuad Unreal plugin and
proves properties about it. That side covers the vertex-slot layout, the
index buffers and the buffer bookkeeping of its two components:

- `UGlowUtils` turns an N-point polygon into a glow mesh. Slots `0..N-1`
  hold the base points. Slots `N+3i+w` hold the three offset points of base
  point `i`, each with a one-hot colour mask. Both UV channels repeat each
  point's direction and are then packed from [-1,1] into [0,1]. The index
  buffer holds an inner fan of `N-2` triangles, a flap ring of `2N`
  triangles and a connector ring of `2N` triangles.
  - `GenerateGlowMesh` emits all of this as one mesh.
  - `GenerateSplitGlowMesh` emits the ring without the fan, plus a separate
    fill mesh.
- `ADoomGlow` is a four-point glow quad actor with a 16-vertex glow section.
  `Init` chooses one of two hard-coded index buffers and creates the mesh
  sections. `SetQuadPoints`, `SetQuadSize` and `SetMaterials` are guarded
  setters. Each `Tick` refreshes the vertices and colours in place: the quad
  corners with the two-sided 1↔3 swap, the flap points at `4+j+3i`, and a
  rim alpha of zero.

Files:

- `vectors.dfy`: vectors and colours as records of reals. The `Engine`
  record carries the engine's vector operations as uninterpreted function
  values: normalisation, range mapping, distance, curve lookup and
  component transforms.
- `topology.dfy`: triangles and the flattening of a triangle list into an
  index buffer, with its inverse. Also the slot layout `SlotIndex`/`SlotAt`,
  the fan, flap and connector rings, and winding.
- `glow_utils.dfy`: the reference layout `GlowMesh` and the two generators.
  The generators are loops that write the buffers at the positions the
  source writes them. Their contracts tie them to the reference layout. The
  file also holds fail-fast versions of both generators and the
  buffer-sizing facts behind the findings below.
- `doom_glow.dfy`: the actor state, the two fixed index buffers, `Init`,
  the setters and `Tick`. Mesh-component calls are recorded as `MeshCall`
  events.
- `wrappers.dfy`: `Option` and `Result`.

The source writes each of `Init`'s two index buffers as one literal. The
shared buffer has three commented groups: quad, flaps, connections. The
glow-only buffer has the last two of them. The model defines each buffer
as the concatenation of its groups.

Two behaviours of the code worth knowing, both modelled as written:

- The generators do not reject polygons with fewer than three points (see
  Findings). `BuildGlowMesh` and `BuildSplitGlowMesh` add that check.
- With a null glow material, `Tick`
  (Source/GlowingQuad/Private/DoomGlow.cpp:51-54) returns before updating
  either section. A separate quad section then keeps the vertices it had
  when `Init` created it.

The generators write into caller-owned arrays. Resizing keeps an array's
leading elements, and a grown array reads uninitialised memory. The model
takes both as inputs: `prior` holds the arrays' old contents, and a
`Memory` gives, for each of the five arrays separately, what its fresh
elements read. The combined and glow buffers are proved
independent of both. The split generator's fill colours, fill UVs and fill
index tail are not.

## Model

| member | source | states |
|---|---|---|
| `GlowUtils.GenerateGlowMesh` | Source/GlowingQuad/Private/GlowUtils.cpp:6-93 | For any prior contents of the out-arrays and any uninitialised memory, the buffers equal the reference layout `GlowMesh`: a function of the points and `Eps` alone. Vertex, colour and both UV buffers have 4N entries. The index buffer has `3*(N-2+4N)` entries and reads back as the fan, flap and connector triangles. The cursor ends exactly at its end, and every index is below 4N. |
| `GlowUtils.GenerateSplitGlowMesh` | Source/GlowingQuad/Private/GlowUtils.cpp:95-193 | Defined for any N. The glow buffers have 4N entries and the glow index buffer 12N. From one point on, the glow vertex, colour and UV buffers are the reference ones, whatever the glow arrays held, and the glow index buffer reads back as the ring triangles. From two points on, they equal the combined generator's, with its `3*(N-2)` fan prefix removed from the indices. The fill vertices are the points. The fill colours and UVs are the old arrays resized to N with a zeroed tail. The fill index buffer has `3*N` entries: the fan, then six entries no loop writes, holding old contents or uninitialised memory. Below two points no fill index is written at all. |
| `GlowUtils.WriteGlowVertices` | Source/GlowingQuad/Private/GlowUtils.cpp:16-53 | Steps 1, 2 and 4 overwrite every slot: from any 4N-entry starting buffers, the four buffers end equal to the reference vertices, colours and packed UVs. |
| `GlowUtils.ResizeUninitialized` | Source/GlowingQuad/Private/GlowUtils.cpp:10-14 | `SetNumUninitialized(n)` gives n elements, and the first `min(old length, n)` keep their old values. |
| `GlowUtils.ResizeZeroed` | Source/GlowingQuad/Private/GlowUtils.cpp:181-183 | `SetNumZeroed(n)` gives n elements: the first `min(old length, n)` keep their old values, and only the added tail is zero. |
| `GlowUtils.ResizeZeroedReuse` | Source/GlowingQuad/Private/GlowUtils.cpp:181-183 | Zeroing resets only an empty array. An array at least n long keeps its first n elements unchanged. |
| `GlowUtils.NextDir` | Source/GlowingQuad/Private/GlowUtils.cpp:30 | The direction towards the next point, where the last point's successor wraps to point 0. |
| `GlowUtils.PrevDir` | Source/GlowingQuad/Private/GlowUtils.cpp:31 | The direction towards the previous point, where point 0's predecessor wraps to point N-1. |
| `GlowUtils.CenterDir` | Source/GlowingQuad/Private/GlowUtils.cpp:32 | Reference definition: the safe normal from point `i` towards the centroid accumulated in step 1. |
| `GlowUtils.GlowMesh` | Source/GlowingQuad/Private/GlowUtils.cpp:16-92 | Reference definition of the combined mesh. Buffer position k holds what its decoded slot prescribes, and the index buffer is the flattened fan, flap and connector triangles. `GlowMeshLayout` states it slot by slot. |
| `GlowUtils.WriteBasePoints` | Source/GlowingQuad/Private/GlowUtils.cpp:16-25 | Slots `0..N-1` get the points with a transparent colour, and the accumulated centre is the centroid. |
| `GlowUtils.WriteOffsetPoints` | Source/GlowingQuad/Private/GlowUtils.cpp:27-53 | After the loop, every slot holds the vertex and mask its decoded slot prescribes. Each UV slot holds its owner's unpacked next- or previous-direction. |
| `GlowUtils.WritePointSlots` | Source/GlowingQuad/Private/GlowUtils.cpp:30-52 | One iteration writes base point `i`'s three offset slots with `P_i - Eps*dir` for the next-, previous- and centre-direction and masks (0,1,0,0), (1,0,0,0), (0,0,1,0). It writes both UV channels at `i` and at those three slots, and nothing else. |
| `GlowUtils.PackUvs` | Source/GlowingQuad/Private/GlowUtils.cpp:87-92 | Every one of the 4N UV slots is packed exactly once, which yields the reference UV channels. |
| `GlowUtils.WriteFan` | Source/GlowingQuad/Private/GlowUtils.cpp:56-63 | Writes exactly `3*(N-2)` entries from the cursor: the fan triangles `(k, 0, k+1)` for `k = 1..N-2`. Entries outside that range are untouched. |
| `GlowUtils.WriteFlaps` | Source/GlowingQuad/Private/GlowUtils.cpp:64-74 | Writes exactly 6N entries: for each `i`, the flap pair `(N+3i+1, i, N+3((i+1)%N))`, `(N+3((i+1)%N), i, (i+1)%N)`. Entries outside that range are untouched. |
| `GlowUtils.WriteFlapPair` | Source/GlowingQuad/Private/GlowUtils.cpp:67-73 | One loop iteration extends the flattened flap prefix by base point `i`'s pair, without touching anything before or after it. |
| `GlowUtils.WriteConnectors` | Source/GlowingQuad/Private/GlowUtils.cpp:75-85 | Writes exactly 6N entries: for each `i`, the connector pair `(N+3i, i, N+3i+2)`, `(N+3i+2, i, N+3i+1)`. Entries outside that range are untouched. |
| `GlowUtils.WriteConnectorPair` | Source/GlowingQuad/Private/GlowUtils.cpp:78-84 | One loop iteration extends the flattened connector prefix by base point `i`'s pair, without touching anything before or after it. |
| `GlowUtils.WriteRing` | Source/GlowingQuad/Private/GlowUtils.cpp:64-85 | The flap loop followed by the connector loop writes exactly the 12N-entry ring index buffer. |
| `GlowUtils.GlowMeshLayout` | Source/GlowingQuad/Private/GlowUtils.cpp:19-52 | Slot `i` holds point `i` with a transparent colour. Slot `N+3i+w` holds `P_i - Eps*dir_w` with mask `w`. UV1 and UV2 at slots `i` and `N+3i+w` equal point `i`'s packed next- and previous-direction. |
| `GlowUtils.BaseSlotLayout` | Source/GlowingQuad/Private/GlowUtils.cpp:19-24 | Base slot `i`: the point itself, a transparent colour, and the point's packed directions. |
| `GlowUtils.OffsetSlotLayout` | Source/GlowingQuad/Private/GlowUtils.cpp:28-52 | Offset slot `N+3i+w`: the pulled-back point, mask `w`, and the owning point's packed directions. |
| `GlowUtils.MasksDistinct` | Source/GlowingQuad/Private/GlowUtils.cpp:39-42 | The three masks are pairwise distinct (if and only if), and none of them is the base points' transparent colour. |
| `GlowUtils.BuildGlowMesh` | Source/GlowingQuad/Private/GlowUtils.cpp:9-14 | Corrected entry point: it fails with `TooFewPoints(N)` exactly when `N < 3`, and otherwise returns the reference mesh. |
| `GlowUtils.BuildSplitGlowMesh` | Source/GlowingQuad/Private/GlowUtils.cpp:180-192 | Corrected split entry point: it fails exactly when `N < 3`. Otherwise its fill index buffer is exactly the `3*(N-2)`-entry fan over base points only, reading back as the fan triangles. Fill plus glow indices together give the combined buffer. The glow vertices, mask colours and packed UVs are the combined mesh's. The fill vertices, colours and UVs are as the split generator leaves them. |
| `GlowUtils.WriteSplitGlow` | Source/GlowingQuad/Private/GlowUtils.cpp:101-177 | The split generator's glow half: the reference vertices, colours and UVs, and the ring alone as an index buffer that reads back as the ring triangles. |
| `GlowUtils.WriteFillIndices` | Source/GlowingQuad/Private/GlowUtils.cpp:184-192 | With the buffer sized to `3*(N-2)`, the fan loop overwrites every entry. The result is the fan over base points only. |
| `GlowUtils.FillIndicesAsWritten` | Source/GlowingQuad/Private/GlowUtils.cpp:184-192 | Reference definition of the fill index buffer as written: the fan followed by the six entries the loop never reaches, or nothing written at all below two points. `FillTailUnwritten` states what follows from it. |
| `GlowUtils.IndexBufferSizeInt32` | Source/GlowingQuad/Private/GlowUtils.cpp:9-14 | The 32-bit size `3*(N-2+4N)` stays in range exactly for N up to 143,165,576. |
| `GlowUtils.IndexWritesFit` | Source/GlowingQuad/Private/GlowUtils.cpp:14-85 | The three index loops stay inside the buffer sized at line 14 if and only if `N >= 2`, and then they fill it exactly. |
| `GlowUtils.SmallPolygonOverflows` | Source/GlowingQuad/Private/GlowUtils.cpp:14-85 | Shows the overflow concretely: one point gives a 9-entry buffer and 12 writes, and no points gives a size of -6. |
| `GlowUtils.FillTailUnwritten` | Source/GlowingQuad/Private/GlowUtils.cpp:184-192 | The fill index buffer is six entries longer than the fan. Two runs agree on it if and only if the buffers' prior contents agree on those six entries. |
| `GlowUtils.TriangleFillKeepsStaleIndex` | Source/GlowingQuad/Private/GlowUtils.cpp:184-192 | For a triangle whose buffer held 7s, the fill buffer is `[1,0,2]` followed by stale 7s. Index 7 names no fill vertex. |
| `Topology.FanTris` | Source/GlowingQuad/Private/GlowUtils.cpp:58-63 | Reference definition of the inner fan: triangles `(k, 0, k+1)` for `k = 1..N-2`. |
| `Topology.FlapTri` | Source/GlowingQuad/Private/GlowUtils.cpp:67-73 | Reference definition of base point `i`'s two flaps: `(N+3i+1, i, N+3((i+1)%N))` and `(N+3((i+1)%N), i, (i+1)%N)`. |
| `Topology.ConnectorTri` | Source/GlowingQuad/Private/GlowUtils.cpp:78-84 | Reference definition of base point `i`'s two connectors: `(N+3i, i, N+3i+2)` and `(N+3i+2, i, N+3i+1)`. |
| `Topology.SlotAt` | Source/GlowingQuad/Private/GlowUtils.cpp:35-52 | Every position below 4N decodes to a valid base or offset slot that is stored there. |
| `Topology.SlotIndexAt` | Source/GlowingQuad/Private/GlowUtils.cpp:35-52 | Every valid slot is stored at exactly one position below 4N, and decoding that position gives the slot back. |
| `Topology.FlattenEncodes` | Source/GlowingQuad/Private/GlowUtils.cpp:57-63 | Every triangle list is encoded by its flattening: the buffer length is a multiple of three, and it reads back as the same list. |
| `Topology.UnflattenFlatten` | Source/GlowingQuad/Private/GlowUtils.cpp:57-63 | An index buffer written three entries per triangle reads back as the same triangle list. |
| `Topology.FlattenUnflatten` | Source/GlowingQuad/Private/GlowUtils.cpp:57-63 | Any index buffer whose length is a multiple of three is the flattening of its triangles. |
| `Topology.GlowIndicesLayout` | Source/GlowingQuad/Private/GlowUtils.cpp:14-85 | The fan has `3*(N-2)` entries and the ring `12N`. The combined buffer has `3*(N-2+4N)` entries and is the fan followed by the ring. |
| `Topology.GlowIndicesInRange` | Source/GlowingQuad/Private/GlowUtils.cpp:58-85 | Every combined index lies in `[0, 4N)`, and the largest, `4N-1`, does occur. |
| `Topology.FanIndicesInRange` | Source/GlowingQuad/Private/GlowUtils.cpp:187-192 | The fan references base points only, so the fill mesh's own N vertices suffice for it. |
| `Topology.RingReferencesEverySlot` | Source/GlowingQuad/Private/GlowUtils.cpp:64-85 | The ring alone references every one of the 4N slots, so no vertex is orphaned. |
| `Vectors.Sign` | Source/GlowingQuad/Private/DoomGlow.cpp:67 | `Sign(x)*x = |x|`, and the sign is zero exactly when `x` is. |
| `Vectors.Pack` | Source/GlowingQuad/Private/GlowUtils.cpp:88-92 | Packing maps the square [-1,1]² into [0,1]². |
| `Vectors.PackRoundTrip` | Source/GlowingQuad/Private/GlowUtils.cpp:88-92 | Packing is undone by `2*x - 1`, so no direction information is lost. |
| `DoomGlow.Construct` | Source/GlowingQuad/Private/DoomGlow.cpp:17-36 | The constructed actor keeps the buffer discipline, uses the found material (if any) for both glow and quad, and has no index buffer yet. |
| `DoomGlow.RectCorners` | Source/GlowingQuad/Private/DoomGlow.cpp:299-304 | Reference definition of the sized quad: corners `(∓X/2, ∓Y/2, 0)` in the source's order. `RectCornersGeometry` states its shape. |
| `DoomGlow.UpdateQuadPoints` | Source/GlowingQuad/Private/DoomGlow.cpp:294-306 | When both sides are positive, the quad points become the centred `X` by `Y` rectangle's corners. Otherwise nothing changes. |
| `DoomGlow.UpdateQuadPointsIdempotent` | Source/GlowingQuad/Private/DoomGlow.cpp:294-306 | Updating twice is the same as updating once. |
| `DoomGlow.RectCornersGeometry` | Source/GlowingQuad/Private/DoomGlow.cpp:299-304 | The corners span an `X` by `Y` rectangle centred on the origin in the z=0 plane, with its normal along +z. |
| `DoomGlow.SetQuadSize` | Source/GlowingQuad/Private/DoomGlow.cpp:161-165 | Stores the size. When both sides are positive, the quad points become the centred rectangle's corners; otherwise they stay. Nothing else changes. |
| `DoomGlow.SetQuadPoints` | Source/GlowingQuad/Private/DoomGlow.cpp:167-176 | The `ensure` guard fails exactly when the count is not four, and then nothing changes. Four points replace the quad and zero the quad size. |
| `DoomGlow.ManualPointsSurvive` | Source/GlowingQuad/Private/DoomGlow.cpp:167-176 | Manually set points survive a later `Init` and a later material change. |
| `DoomGlow.Init` | Source/GlowingQuad/Private/DoomGlow.cpp:231-269 | Picks the 54-entry buffer if and only if the materials are equal, and the 48-entry one if and only if they differ. Only the points and the index buffer change, and the first mesh call clears all sections. |
| `DoomGlow.InitSections` | Source/GlowingQuad/Private/DoomGlow.cpp:249-268 | Section 0 is created if and only if there is a glow material, with the chosen index buffer and that material. Section 1 is created if and only if the quad material is non-null and differs, with `{0,1,2,0,2,3}` and the quad material. No other section is created. |
| `DoomGlow.InitDrawsQuadIffQuadMaterial` | Source/GlowingQuad/Public/DoomGlow.h:63-65 | The quad's triangles are submitted by some created section if and only if the quad material is non-null. |
| `DoomGlow.SetMaterials` | Source/GlowingQuad/Private/DoomGlow.cpp:178-191 | The current pair is a no-op, with no calls and no state change. Any other pair stores both materials and re-runs `Init`. That clears all sections first and picks the 54-entry buffer exactly when the new pair is equal. |
| `DoomGlow.SetMaterialsIdempotent` | Source/GlowingQuad/Private/DoomGlow.cpp:180-183 | Setting the same pair again makes no calls and changes nothing. |
| `DoomGlow.QuadAndGlowIndices` | Source/GlowingQuad/Private/DoomGlow.cpp:238-240 | The 54-entry literal used when quad and glow share a material: quad, flaps and connections groups. |
| `DoomGlow.GlowOnlyIndices` | Source/GlowingQuad/Private/DoomGlow.cpp:245-246 | The 48-entry literal used when the materials differ: the flaps and connections groups only. |
| `DoomGlow.SharedIsQuadThenGlowOnly` | Source/GlowingQuad/Private/DoomGlow.cpp:235-247 | The 54-entry buffer is the quad's two triangles followed by the 48-entry buffer. |
| `DoomGlow.FixedIndexBuffers` | Source/GlowingQuad/Private/DoomGlow.cpp:235-247 | The buffers have 54 and 48 entries, and every entry is below 16. The 48-entry buffer names every one of the 16 vertices. |
| `DoomGlow.GlowOnlyReversesRing` | Source/GlowingQuad/Private/DoomGlow.cpp:245-246 | Each of the 16 glow-only triangles is the split generator's ring triangle for N=4 with its first two corners swapped: same corners, opposite winding. |
| `DoomGlow.FixedBuffersReverseGenerated` | Source/GlowingQuad/Private/DoomGlow.cpp:238-240 | Each of the 18 shared-buffer triangles is the combined generator's triangle for N=4 with its first two corners swapped: same corners, opposite winding. |
| `DoomGlow.OrientedQuad` | Source/GlowingQuad/Private/DoomGlow.cpp:70-75 | Four entries in, four out: corners 1 and 3 swapped when the quad is seen from behind and two-sided. The same swap is applied to the quad UVs at lines 143-146. |
| `DoomGlow.OrientedQuadInvolution` | Source/GlowingQuad/Private/DoomGlow.cpp:70-75 | The two-sided flip trades corners 1 and 3, keeps 0 and 2, and undoes itself. |
| `DoomGlow.OrientedQuadPermutes` | Source/GlowingQuad/Private/DoomGlow.cpp:70-75 | The flip is a permutation of the four corners. |
| `DoomGlow.OrientedQuadAt` | Source/GlowingQuad/Private/DoomGlow.cpp:143-146 | Vertices and quad UVs are permuted alike, so every corner keeps its UV when flipped. |
| `DoomGlow.FlipReversesQuadWinding` | Source/GlowingQuad/Private/DoomGlow.cpp:70-75 | The quad's two triangles drawn over the flipped corners are the original triangles with the opposite winding. |
| `DoomGlow.ViewOf` | Source/GlowingQuad/Private/DoomGlow.cpp:61-89 | The quad is flipped exactly when the camera sees its back (`Dot < 0`) and it is two-sided. Slots 0..3 are then the oriented quad. A flip makes the push sign +1; otherwise the sign is `Sign(Dot)`. |
| `DoomGlow.PushDirs` | Source/GlowingQuad/Private/DoomGlow.cpp:94-97 | Corner `i` is pushed across the edge to its cyclic predecessor, across the edge to its cyclic successor, and along their normalised sum. The first two are scaled by the sign. |
| `DoomGlow.ToLocal` | Source/GlowingQuad/Private/DoomGlow.cpp:102-109 | Reference definition: the offset is brought back into component space with scale when the glow size ignores scale, and without it otherwise. |
| `DoomGlow.FlapVertex` | Source/GlowingQuad/Private/DoomGlow.cpp:99-110 | Reference definition: flap point `j` of corner `i` is the oriented corner plus the push distance along push direction `j`, in component space. |
| `DoomGlow.WriteBaseSlots` | Source/GlowingQuad/Private/DoomGlow.cpp:56-59 | Slots 0..3 receive the quad points, and slots 4..15 are untouched. |
| `DoomGlow.FrameView` | Source/GlowingQuad/Private/DoomGlow.cpp:56-89 | The normal, centre, dot, sign, alpha, flip, eye directions and push distance computed in place are the frame's view. After the flip, slots 0..3 hold the oriented quad. |
| `DoomGlow.WriteFlapSlots` | Source/GlowingQuad/Private/DoomGlow.cpp:91-112 | The writes at `4+j+3i` cover slots 4..15. Each slot gets its own corner's point pushed along its own direction, and slots 0..3 are untouched. |
| `DoomGlow.WriteColors` | Source/GlowingQuad/Private/DoomGlow.cpp:114-124 | Colours 0..3 are the fill rgb with alpha `Alpha*FillColor.A`. Colours 4..15 are the glow rgb with alpha 0. |
| `DoomGlow.WriteGlowSection` | Source/GlowingQuad/Private/DoomGlow.cpp:56-124 | The glow section's 16 vertices and colours are those of the frame's view, slot by slot. |
| `DoomGlow.WriteQuadSlots` | Source/GlowingQuad/Private/DoomGlow.cpp:128-135 | The separate quad copies slots 0..3 and paints all four corners with the faded fill colour. |
| `DoomGlow.Tick` | Source/GlowingQuad/Private/DoomGlow.cpp:39-152 | Without a camera or a glow material, nothing changes and no call is made. Otherwise only the four vertex and colour buffers change, with the per-slot contents above and all lengths kept. Section 0 is updated first. Section 1 is updated with the oriented quad UVs exactly when the quad is drawn separately. |

## Left out

- Floating point: vectors and colours are reals, so float rounding and
  NaN are not modelled.
- Engine vector maths is uninterpreted, because the engine's code is not
  part of this model. This covers `GetSafeNormal`, `GetUnsafeNormal`,
  `Normalize`, `GetMappedRangeValueClamped`, `FVector::Distance`, curve
  lookup and the component-transform conversions. Each is a field of the
  `Engine` record.
- `GetCameraLocation` (Source/GlowingQuad/Private/DoomGlow.cpp:202-229) is
  the `camera` parameter of `Tick`, already in local space. It queries the
  player controller and the editor viewport, which are outside the model.
- `DrawDebugEdges` is left out; it is diagnostic drawing only.
- The constructor's asset lookup is the `found` parameter of `Construct`.
- `OnConstruction`, `PostEditChangeProperty` and `ShouldTickIfViewportsOnly`
  are engine hooks. The first two only call `Init`.
- Procedural-mesh-component calls are recorded as `MeshCall` values; what
  the renderer does with them is not modelled.
- Materials are modelled by identity (`Material(id)`) and the distance-fade
  curve by a handle.
- GlowUtils.GenerateGlowMesh: requires `N >= 2`, the exact range in which
  every write stays in bounds. Below it the source writes past the index
  buffer (N = 1) or requests a negative size (N = 0). That is stated by
  `IndexWritesFit` and `SmallPolygonOverflows` rather than modelled as
  execution.
- GlowUtils.GenerateGlowMesh: sizes are unbounded integers. The source
  computes `4*N` and `3*(N-2+4N)` in 32-bit `int`, which wraps from
  N = 143,165,577 on (`IndexBufferSizeInt32`). Past that point the model's
  in-bounds writes are not what the source does.
- GlowUtils.GenerateSplitGlowMesh: its 32-bit sizes are unbounded here too.
  `12*N` wraps from N = 178,956,971 on and `4*N` from N = 536,870,912 on;
  neither is modelled. With no points the source divides the centroid by
  zero, which no later step reads; the model returns the empty buffers.
- GlowUtils.GenerateGlowMesh: `Eps` is a parameter. Its default of 0.1
  (Source/GlowingQuad/Public/GlowUtils.h:18 and 24) is named only in the
  generators' doc comment.
- DoomGlow.SetQuadPoints: the failed `ensure` is the `ensureFailed` flag.
  The engine's report itself (log, callstack, only the first failure per
  call site) is not modelled.

## Findings

| source | as written | input that shows it | evidently intended | confidence | as-written member | corrected member |
|---|---|---|---|---|---|---|
| Source/GlowingQuad/Private/GlowUtils.cpp:14 | The index buffer is sized `3*(N-2+4N)` with no check on N, while the flap and connector loops always write 12N entries | N = 1: a 9-entry buffer receives 12 writes; N = 0 asks for size -6 | Polygons with fewer than three points are rejected | medium, not executed | `GlowUtils.SmallPolygonOverflows` | `GlowUtils.BuildGlowMesh` |
| Source/GlowingQuad/Private/GlowUtils.cpp:184 | `FillIndexBuffer` is sized `3*N` but only the `3*(N-2)` fan entries are written | N = 3 with a buffer previously holding 7s: the fill indices are `[1,0,2,7,7,7,7,7,7]`, naming vertex 7 of a 3-vertex mesh | The fill index buffer holds exactly the `N-2` fan triangles | high, not executed | `GlowUtils.FillTailUnwritten` | `GlowUtils.BuildSplitGlowMesh` |
