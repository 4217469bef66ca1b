# GLC_lib: instances and the extended geometry engine

This project models two small state machines from GLC-lib, a rendering library
built on OpenGL, and proves properties of the model.

- **`GLC_Instance`** (`glc_instance.cpp`) is one placed occurrence of a
  geometry. Copies of an instance share the geometry through a raw `int`
  counter that every copy points to. Copy construction and assignment add a
  share. `clear()` drops a share, and the last instance out deletes the
  geometry and the counter. The instance caches its transformed bounding box.
  The cache is used only while the instance's own flag and the geometry's
  flag both hold, and every change to the placement matrix clears the
  instance's flag. The 32-bit identifier is encoded into four RGBA bytes for
  colour picking, and `decodeRgbId` reads back the low 24 bits.
- **`GLC_ExtendedGeomEngine`** (`geometry/glc_extendedgeomengine.cpp`) owns
  the position, normal and texel arrays, their OpenGL buffer objects, and a
  list of level-of-detail (LOD) objects that own the index buffers.
  `createVBOs()` creates the buffers once, and its only guard is the vertex
  buffer. `useVBO` binds or unbinds an attribute buffer; its one failure is a
  texel buffer that was never created. `useIBO` either fans out to every LOD
  or unbinds the element-array target once.

Layout:

- `wrappers.dfy` (`Wrappers`): `Option`.
- `transforms.dfy` (`Transforms`): symbolic matrices and boxes.
- `color_id.dfy` (`ColorId`): the colour encoding and decoding.
- `instances.dfy` (`Instances`): `Geometry`, `Counter` and `Instance`.
- `gl.dfy` (`Gl`): the OpenGL context.
- `engine_lod.dfy` (`EngineLods`): `EngineLod`.
- `geom_engine.dfy` (`GeomEngines`): `ExtendedGeomEngine`.

Modelling choices:

- The shared counter is a `Counter` object. Its ghost set `holders` is the set
  of instances that currently own a share. `Counter.Valid()` says the integer
  equals the size of that set and that every holder points back to the
  counter. So the count is always the number of live sharing instances.
- Deletion is modelled by clearing an `alive` flag on the geometry or the
  counter.
- The cached box is exclusively owned and deep-copied, so it is a value
  (`Option<Box>`), not a heap object.
- `BoundingBoxValidity` is `getBoundingBoxValidity`. What its answer promises
  is stated as `CacheCoherent()`: while the cache is reported valid, it holds
  the geometry's box under the current placement. Every constructor
  establishes this, and every operation except `setGeometry` preserves it.
- `GLC_Matrix4x4` and `GLC_BoundingBox` are symbolic terms. The matrix product
  and the box transform build a term and are never evaluated.
- The OpenGL context is an explicit parameter (`Gl.Context`). It holds a
  fresh, non-zero buffer-name allocator, the set of live names, and the
  `ARRAY_BUFFER` and `ELEMENT_ARRAY_BUFFER` bindings. It also keeps an ordered
  log of the engine's calls on its LODs, so "once per LOD, in list order" can
  be stated, and a ghost log of the element-array binds the engine itself
  issues.
- Identifiers from `glc::GLC_GenID` and from the `GLC_Object` base part are
  parameters of the constructors and of `clone`/`instanciate`.
- `setGeometry` replaces the geometry pointer without touching the reference
  count, exactly as written, so the old geometry's count is not adjusted on
  that path. The model keeps this asymmetry.
- A LOD's `createIBOs` and `useIBO` may allocate and bind index buffers of
  their own. Their contracts let them add buffer names and change the
  element-array binding, though never release a name. So the engine's
  statements cover the buffers it allocates and binds itself.

## Model

| member | source | states |
|---|---|---|
| `ColorId.ColorOf` | glc_instance.cpp:379-385 | the colour of an identifier is exactly four bytes |
| `ColorId.ColorReassembles` | glc_instance.cpp:379-385 | byte i holds bits [8i, 8i+8): the four bytes, read as base-256 digits, give back the whole identifier |
| `ColorId.ColorOfInjective` | glc_instance.cpp:379-385 | different identifiers get different colours |
| `ColorId.DecodeRgbId` | glc_instance.cpp:210-220 | the decoded identifier fits in 24 bits, and its bytes 0..2 are the sample's bytes 0..2 |
| `ColorId.DecodeEncode` | glc_instance.cpp:210-220 | decoding the colour of `uid` gives `uid & 0xFFFFFF` |
| `ColorId.DecodeIgnoresAlpha` | glc_instance.cpp:216-217 | the fourth byte never changes the decoded identifier |
| `ColorId.PickColorsCollide` | glc_instance.cpp:210-220 | two identifiers give the same first three colour bytes iff they agree on their low 24 bits |
| `Instances.Instance.constructor` | glc_instance.cpp:36-53 | no geometry, no box, identity matrix, flags and polygon mode at their defaults, a new counter at 1 held by this instance alone, colour of the given identifier; the cache is coherent |
| `Instances.Instance.WithGeometry` | glc_instance.cpp:56-75 | as the default constructor, but owning the given geometry; the cache is coherent |
| `Instances.Instance.Copy` | glc_instance.cpp:78-102 | shares the source's geometry and counter; the count goes up by one and the copy joins the holders; box, matrix, flags and mode are copied; the colour is that of the copy's identifier; a coherent source gives a coherent copy |
| `Instances.Instance.Assign` | glc_instance.cpp:106-136 | self-assignment changes nothing, the geometry included; otherwise the state and identifier of the source are copied, the old share is released (the last one out deletes) and a share of the source's counter is taken; with one counter on both sides the count is unchanged and the old geometry is not deleted; coherent caches stay coherent |
| `Instances.Instance.Destroy` | glc_instance.cpp:139-142 | releases the share: the count goes down by one, and the geometry and counter are deleted exactly when it reaches zero |
| `Instances.Instance.BoundingBoxValidity` | glc_instance.cpp:167-177 | true iff geometry and cached box are both present and both flags hold; a true answer means `CacheCoherent`, which every operation but setGeometry keeps |
| `Instances.Instance.GetBoundingBox` | glc_instance.cpp:149-177 | returns the cached box when the validity check holds; otherwise, with a geometry, caches and returns the geometry's box under the matrix and sets the flag; without a geometry returns an empty box and changes nothing; with a coherent cache, the result is always the geometry's box under the current matrix, and the cache stays coherent |
| `Instances.Instance.Clone` | glc_instance.cpp:180-196 | a new instance with its own counter at 1 and a new geometry with the same content, distinct from the source's; box, matrix, flags and mode copied; colour of the clone's identifier; a coherent source gives a coherent clone |
| `Instances.Instance.Instanciate` | glc_instance.cpp:199-207 | the copy shares geometry and counter (count up by one); box, matrix, flags and polygon mode are copied; it has the fresh identifier but keeps the colour of the identifier its base part received; the source's own colour is re-encoded |
| `Instances.Instance.InstanciateRecoded` | glc_instance.cpp:199-207 | corrected: the same sharing and copied state, and the copy's colour decodes to the copy's fresh identifier |
| `Instances.Instance.SetGeometry` | glc_instance.cpp:228-236 | returns false iff there is no geometry, and then changes nothing; otherwise replaces the pointer; the counter and the box flag are never touched |
| `Instances.Instance.SetGeometryInvalidating` | glc_instance.cpp:228-236 | corrected: the same result and pointer update, and the box flag is cleared, so a coherent cache stays coherent |
| `Instances.Instance.Translate` | glc_instance.cpp:239-244 | the matrix becomes the translation times the old matrix; the cache is invalid, hence coherent |
| `Instances.Instance.MultMatrix` | glc_instance.cpp:248-254 | the matrix becomes `M * old`; the cache is invalid, hence coherent; nothing else changes |
| `Instances.Instance.SetMatrix` | glc_instance.cpp:257-263 | the matrix becomes `S`; the cache is invalid, hence coherent; nothing else changes |
| `Instances.Instance.ResetMatrix` | glc_instance.cpp:266-272 | the matrix becomes the identity; the cache is invalid, hence coherent; nothing else changes |
| `Instances.Instance.SetPolygonMode` | glc_instance.cpp:275-283 | face and mode are the arguments afterwards; with the same arguments again nothing changes (idempotent); cache coherence is kept |
| `Instances.Instance.ComputeBoundingBox` | glc_instance.cpp:328-338 | the cached box is the geometry's box under the matrix, so the cache is coherent |
| `Instances.Instance.Clear` | glc_instance.cpp:341-376 | the count goes down by one; geometry and counter are deleted and the pointers nulled exactly when it reaches zero, and are untouched otherwise, where the remaining holders stay consistent; the box is released and the flag cleared in every case, leaving the cache coherent |
| `Instances.Instance.EncodeIdInRGBA` | glc_instance.cpp:379-385 | the stored colour is the colour of the identifier |
| `Instances.LastOneOutDeletes` | glc_instance.cpp:341-376 | with one owner and n copies, destroying all but the last leaves the geometry alive and destroying the last deletes it |
| `Instances.InstanciatePickColorClash` | glc_instance.cpp:199-207 | a copy made by instanciate decodes to the identifier its base copy received, not its own fresh one |
| `Instances.InstanciateRecodedPicksApart` | glc_instance.cpp:199-207 | with the corrected instanciate, source and copy decode to their own identifiers |
| `Instances.SetGeometryKeepsStaleBox` | glc_instance.cpp:228-236 | after caching a box for one geometry and switching to another whose box is valid, the cache is still reported valid but is not the new geometry's box |
| `Instances.SetGeometryInvalidatingRefreshes` | glc_instance.cpp:228-236 | with the corrected setGeometry, the next getBoundingBox returns the new geometry's box under the placement |
| `GeomEngines.ExtendedGeomEngine.constructor` | geometry/glc_extendedgeomengine.cpp:31-42 | exactly one new LOD, empty arrays, no buffers |
| `GeomEngines.ExtendedGeomEngine.Copy` | geometry/glc_extendedgeomengine.cpp:45-60 | the three arrays copied, the handles reset to 0, a LOD list of the source's length whose element i is a new copy of source element i |
| `GeomEngines.ExtendedGeomEngine.Destroy` | geometry/glc_extendedgeomengine.cpp:62-75 | the texel buffer is deleted iff its handle is non-zero, and the engine itself releases no other name; a binding changes only if it held the deleted texel name, and then becomes 0; every LOD is deleted |
| `GeomEngines.ExtendedGeomEngine.DestroyReleasingNormals` | geometry/glc_extendedgeomengine.cpp:62-75 | corrected: the normal buffer is deleted as well when its handle is non-zero; a binding changes only if it held one of the deleted names, and then becomes 0 |
| `GeomEngines.ExtendedGeomEngine.PositionVector` | geometry/glc_extendedgeomengine.cpp:81-102 | without a vertex buffer the positions themselves; otherwise as many values read back, leaving the array binding at 0 |
| `GeomEngines.ExtendedGeomEngine.NormalVector` | geometry/glc_extendedgeomengine.cpp:105-125 | the same for the normals, keyed on the normal buffer |
| `GeomEngines.ExtendedGeomEngine.CreateVBOs` | geometry/glc_extendedgeomengine.cpp:133-153 | with a vertex buffer nothing changes: handles, live names, allocator, element-array binding and LOD calls (idempotence); otherwise fresh, distinct, live vertex and normal names, a fresh live texel name iff the texel handle was 0 and there are texels, no name released, and createIBOs on every LOD in list order |
| `GeomEngines.ExtendedGeomEngine.UseVBO` | geometry/glc_extendedgeomengine.cpp:155-182 | unbinding always succeeds; binding fails iff the texel buffer was asked for and never created, and then nothing is bound; otherwise the handle of the type is bound, even if it is 0 |
| `GeomEngines.ExtendedGeomEngine.UseIBO` | geometry/glc_extendedgeomengine.cpp:185-201 | with `use`, useIBO(kind) on every LOD in order and no element-array bind issued by the engine itself; without, exactly one bind, of 0, the element-array binding is 0 and no LOD is called |
| `GeomEngines.EachLodCalledOnce` | geometry/glc_extendedgeomengine.cpp:147-151 | in those call sequences each LOD of the list is called exactly once, and no other object is called |
| `GeomEngines.NormalBufferOutlivesEngine` | geometry/glc_extendedgeomengine.cpp:62-75 | after createVBOs and the destructor, the engine's normal buffer name is still live |
| `GeomEngines.DestroyReleasingNormalsFrees` | geometry/glc_extendedgeomengine.cpp:62-75 | with the corrected destructor, neither the normal nor the texel name stays live |
| `GeomEngines.BindAfterCreate` | geometry/glc_extendedgeomengine.cpp:133-182 | after createVBOs on an engine with four vertices, the vertex buffer binds, and the texel buffer binds iff there are texels |

## Left out

- `glExecute` and `glVisProperties` (glc_instance.cpp:290-319) are left out. They push and pop the GL matrix stack, set the polygon mode, multiply the matrix, set the pick colour in selection mode and draw. They are rendering side effects only. The early return on a null geometry in `glExecute` is not modelled.
- Matrices and bounding boxes are symbolic. No double-precision value is computed.
- The values that `positionVector`/`normalVector` read back through `glMapBuffer`/`memcpy` are left out. They are GPU memory; only their number and the branch taken are modelled.
- `GLC_Object` is not part of this model. The identifier each constructor gives its base part is a parameter. The object name, which the geometry constructor and `operator=` copy, is not modelled.
- `glc::GLC_GenID` is not part of this model. The fresh identifier is a parameter of `Instanciate`, and of `Clone` through the default constructor.
- `GLC_VboGeom` is not part of this model. A geometry is reduced to its local box, the validity flag of that box, its mesh (copied by `clone`) and whether it is deleted; `boundingBox()` only reads the local box.
- `GLC_EngineLod` is not part of this model. A LOD records `createIBOs`/`useIBO` calls in the context's log. Which index buffers it allocates and binds is not modelled, its own element-array binds are not entered in the context's bind log, and the GL effects of its destructor are not modelled either.
- The base `GLC_GeomEngine` is not part of this model. Its `m_VboId` is a field that both constructors start at 0; how the base class allocates and releases that buffer is not modelled.
- `clone` and `instanciate` return by value. The model assumes copy elision (named return value optimisation). Without it, the return copy would run the copy constructor, which re-encodes the colour from that copy's own identifier (glc_instance.cpp:92). The `instanciate` finding depends on this assumption.
- Buffer names are unbounded naturals. The 32-bit width of `GLuint` is not modelled.
- `Instances.Counter`: the shared count is an unbounded `int`; the overflow of the C `int` at `INT_MAX` shares is not modelled.
- Deletion only clears an `alive` flag. A geometry deleted twice, which `setGeometry` makes possible, is not flagged.
- `Instances.Instance.Clear`: requires the whole class invariant (a live counter whose count matches its holders), where the source only asserts a non-null counter (`Q_ASSERT`); `Destroy` and `Assign` inherit this.
- `qDebug` output is left out, and so is concurrency: there is none, and the raw counter is not thread-safe by design.

## Findings

| source | as written | input that shows it | evidently intended | confidence | as-written member | corrected member |
|---|---|---|---|---|---|---|
| glc_instance.cpp:199-207 | `instanciate` gives the copy a fresh identifier and then calls `encodeIdInRGBA()` on `this`, so the copy keeps the colour of the identifier it was copy-constructed with | source identifier 1, and a base copy that receives the same identifier; fresh identifier 2: the copy's colour decodes to the identifier its base copy received, 1, not 2 (`Instances.InstanciatePickColorClash`) | re-encode the copy: `instance.encodeIdInRGBA()`, so a pick on the copy yields the copy's identifier | medium; not executed; assumes the returned copy is elided, since a copy made on return would re-encode its own colour | `Instances.Instance.Instanciate` | `Instances.Instance.InstanciateRecoded` |
| glc_instance.cpp:228-236 | `setGeometry` replaces the geometry but leaves `m_IsBoundingBoxValid` and the cached box as they are | cache a box for geometry g1, then set g2 whose own box is valid: `getBoundingBoxValidity()` holds and `getBoundingBox()` returns g1's box under the placement (`Instances.SetGeometryKeepsStaleBox`) | invalidate the cached box when the geometry changes, so the next `getBoundingBox()` recomputes it | medium; not executed | `Instances.Instance.SetGeometry` | `Instances.Instance.SetGeometryInvalidating` |
| geometry/glc_extendedgeomengine.cpp:62-75 | the destructor deletes the texel buffer and the LODs, but never the normal buffer that `createVBOs` allocates (line 139) in this class's own `m_NormalVboId` | an engine without texels, after `createVBOs()`, then destroyed: its normal buffer name is still live (`GeomEngines.NormalBufferOutlivesEngine`) | also `glDeleteBuffers(1, &m_NormalVboId)` when it is non-zero | medium; not executed; established only for the files modelled: the base class destructor cannot reach a member declared in this class, but an owner not part of this model could release the name through an accessor | `GeomEngines.ExtendedGeomEngine.Destroy` | `GeomEngines.ExtendedGeomEngine.DestroyReleasingNormals` |
