# reverie_engine rendering core, modelled in Dafny

This project models the GPU binding layer and the frame orchestrator of the
`reverie_engine` crate, a small wgpu engine:

- **Layout slots and the renderer object** (`renderer.rs`): `Renderer::new`
  fills the five process-wide layout slots and builds the camera layout, the
  depth texture and three pipelines over their layouts. The `get_*_layout`
  getters unwrap a slot. `resize` replaces the depth texture. `draw` records
  one frame into a command encoder. It records one depth-only pass per
  (light, cube face) pair, then one colour+depth pass that draws the skybox
  and then every entity that has a transform, a mesh and a material.
- **`Gpu<T>`** (`gpu.rs`): an asset shared through a handle, a fixed list of
  device buffers and a bind group. `update_buffer` overwrites the start of
  one buffer.
- **Resource loading** (`resources.rs`): the path `load_string` and
  `load_binary` build under `res`. The per-model post-processing of
  `load_mesh`: de-interleaving the parser's flat arrays into vertices,
  counting triangle incidences, the index buffer, `element_count` and the
  material-slot default.
- **Materials** (`material.rs`, `components/material.rs`): construction
  defaults, the persisted document, `create`, the extension-gated `save`,
  the diffuse upload to buffer 0, and the scene component built from a
  registry lookup.

Each created texture, texture view, buffer, bind group layout and pipeline
is an opaque `Handle` handed out by a `Device`, whose counter makes each
handle fresh. Shader modules and pipeline layout objects are not
represented. An `f32` is carried as its 32-bit pattern, because
the model copies floats and uploads them. The one thing it tells apart
about a float is whether it is a NaN, because YAML text has a single
`.nan` and a material document therefore holds every NaN as `f32::NAN`. A
panic in the source (`unwrap`, an out-of-range index) is a precondition. The
command encoder is a class whose `commands` log the methods append to.
Dropping a render pass is an `EndPass` command.

The frame is specified twice:

- `Frame.FrameCommands` is a function of the renderer's pipelines and the
  scene. The imperative `Rendering.Renderer.Draw` is proved to append exactly
  that sequence.
- `FrameOrder` and `FrameCounts` then prove what the sequence means. They
  cover the pass order, which entities are drawn, how many draws of each
  kind there are, which bind groups go to which slot, and that the shadow
  passes and the main pass visit the same submeshes.

Files: `base.dfy` (shared types, the byte encoding of words, the device),
`paths.dfy`, `layouts.dfy`, `gpu.dfy`, `materials.dfy`,
`material_component.dfy`, `resources.dfy`, `frame.dfy` (commands, scene,
frame function), `frame_counts.dfy`, `frame_order.dfy`, `slots.dfy` (bind
slot consistency) and `renderer.dfy`.

Behaviour of the code worth noting:

- `MaterialComponent::new` unwraps the registry's answer, so an unknown id
  panics. The model makes a known id a precondition.
- `Renderer::new` overwrites the five layout slots every time it runs.
- `draw` always returns `Ok`. No surface error is produced inside it.
- The skybox and the opaque entities are drawn inside one render pass.
- Each shadow pass draws every submesh of every qualifying entity. So the
  shadow draws number (sum of views) x (sum of qualifying submeshes).

A copied `MaterialComponent` refers to the
same `Gpu<Material>` object, because `Gpu` is a class held by reference.

## Model

| member | source | states |
|---|---|---|
| Base.CastWordsRoundTrip | reverie_engine/src/engine/material.rs:116 | reading the little-endian bytes `cast_slice` produces back as words gives the original words |
| Paths.Split | reverie_engine/src/engine/resources.rs:14 | splitting on '/' yields at least one piece and no piece contains '/' |
| Paths.JoinSplit | reverie_engine/src/engine/resources.rs:14-16 | the pieces joined with '/' give back the file name, so splitting loses no character |
| Paths.SplitJoin | reverie_engine/src/engine/resources.rs:14-16 | splitting the '/'-join of separator-free pieces gives back those pieces |
| Paths.SetExtension | reverie_engine/src/engine/resources.rs:53-54 | `set_extension` keeps the number of segments and every segment before the file name |
| Paths.SetExtensionStem | reverie_engine/src/engine/resources.rs:53-54 | after `set_extension("mtl")` the file name has extension "mtl" and the same stem as before |
| Paths.LastDot | reverie_engine/src/engine/resources.rs:54 | the index found holds a '.', no later character is a '.', and None means the name has no '.' |
| Resources.ResolvePath | reverie_engine/src/engine/resources.rs:13-16 | the loop builds the current directory, then "res", then every '/'-separated piece of the name in order |
| Resources.LoadString | reverie_engine/src/engine/resources.rs:12-20 | the text of the file at the resolved path, or the read error exactly when the path is not a readable file |
| Resources.LoadBinary | reverie_engine/src/engine/resources.rs:22-30 | the bytes of the file at the resolved path, or the read error exactly when the path is not a readable file |
| Resources.MtlResourcePath | reverie_engine/src/engine/resources.rs:52-56 | the material library is looked up under `res`, segment by segment of the mesh path with its extension replaced by "mtl" |
| Resources.Deinterleave | reverie_engine/src/engine/resources.rs:75-91 | there are `positions.len() / 3` vertices, each starting with a zero tangent and bitangent |
| Resources.DeinterleaveRoundTrip | reverie_engine/src/engine/resources.rs:76-87 | vertex i takes positions[3i..3i+3], texcoords[2i..2i+2] and normals[3i..3i+3]; interleaving back gives the flat arrays cut to the vertex count |
| Resources.PositionsPrefix | reverie_engine/src/engine/resources.rs:77-81 | the positions of the first k vertices are the first 3k position floats |
| Resources.TexCoordsPrefix | reverie_engine/src/engine/resources.rs:82 | the texture coordinates of the first k vertices are the first 2k texcoord floats |
| Resources.NormalsPrefix | reverie_engine/src/engine/resources.rs:83-87 | the normals of the first k vertices are the first 3k normal floats |
| Resources.WithFrames | reverie_engine/src/engine/resources.rs:119-141 | the tangent maths changes only tangents and bitangents: positions, texture coordinates and normals stay |
| Resources.SameAttributes | reverie_engine/src/engine/resources.rs:119-141 | vertex lists that agree on position, texture coordinates and normal give the same flat arrays |
| Resources.FinalAttributes | reverie_engine/src/engine/resources.rs:146-150 | whatever the tangent maths computes, the vertex buffer carries the parser's positions, texture coordinates and normals |
| Resources.CountTriangles | reverie_engine/src/engine/resources.rs:94-134 | for whole triples of in-range indices, none named more than `i32::MAX` times, no `i32` increment overflows and each vertex's counter equals how often the vertex occurs in the indices |
| Resources.OccurrencesPrefix | reverie_engine/src/engine/resources.rs:96-134 | a counter partway through the loop is at most its final value, so the final bound covers every increment |
| Resources.OccurrencesTriple | reverie_engine/src/engine/resources.rs:132-134 | one triple adds one occurrence per corner that names the vertex |
| Resources.ElementCount | reverie_engine/src/engine/resources.rs:162 | `indices.len() as u32` equals the index count whenever that count fits in 32 bits |
| Resources.MaterialSlot | reverie_engine/src/engine/resources.rs:163 | the material slot is the parser's material id when present and 0 otherwise |
| Resources.BuildMesh | reverie_engine/src/engine/resources.rs:74-164 | name, vertex buffer, unchanged index buffer, element count and material slot of one mesh; two fresh buffers; the triangle counts, which panic rather than pass `i32::MAX` |
| Resources.LoadMesh | reverie_engine/src/engine/resources.rs:37-169 | an unreadable file is the only error; otherwise one mesh per parsed model, in order, each as `MeshOf` states, with mesh k on the device's handles next+2k and next+2k+1, and two handles taken per mesh |
| Layouts.CreateBindGroupLayout | reverie_engine/src/engine/renderer.rs:46-60 | a fresh layout over exactly the given entries, whose binding indices must be distinct |
| Layouts.LayoutRegistry.constructor | reverie_engine/src/engine/renderer.rs:29-33 | every one of the five global slots starts out empty |
| Layouts.LayoutRegistry.GetMaterialLayout | reverie_engine/src/engine/renderer.rs:454-456 | an empty material slot panics; otherwise the stored layout is returned |
| Layouts.LayoutRegistry.GetTransformLayout | reverie_engine/src/engine/renderer.rs:458-460 | an empty transform slot panics; otherwise the stored layout is returned |
| Layouts.LayoutRegistry.GetLightLayout | reverie_engine/src/engine/renderer.rs:462-464 | an empty light slot panics; otherwise the stored layout is returned |
| Layouts.LayoutRegistry.GetShadowLayout | reverie_engine/src/engine/renderer.rs:466-468 | an empty shadow slot panics; otherwise the stored layout is returned |
| Layouts.LayoutRegistry.GetSkyboxLayout | reverie_engine/src/engine/renderer.rs:470-472 | an empty skybox slot panics; otherwise the stored layout is returned |
| GpuBinding.WriteAtStart | reverie_engine/src/engine/gpu.rs:34 | a write at offset 0 keeps the buffer's length, puts the data first and leaves every later byte as it was |
| GpuBinding.Gpu.New | reverie_engine/src/engine/gpu.rs:13-22 | the asset's `load` runs on the shared value, and exactly the buffers and bind group it returns are kept, with the same asset handle and queue |
| GpuBinding.Gpu.Create | reverie_engine/src/engine/gpu.rs:24-31 | the given asset handle, queue, buffers and bind group are stored unchanged |
| GpuBinding.Gpu.UpdateBuffer | reverie_engine/src/engine/gpu.rs:33-35 | an index past the buffer list panics; the data overwrites the start of that buffer only; other bytes and other buffers are unchanged |
| Materials.NewTextureId | reverie_engine/src/engine/material.rs:19-25 | the id is kept and no texture is resolved |
| Materials.NewMaterial | reverie_engine/src/engine/material.rs:69-75 | the diffuse colour and both texture ids are kept, and neither texture is resolved |
| Materials.DefaultMaterial | reverie_engine/src/engine/material.rs:85-89 | the material `create` makes is white (1.0 in each channel) with both texture ids absent |
| Materials.ToText | reverie_engine/src/engine/material.rs:105-110 | a channel written as YAML text is kept bit for bit unless it is a NaN, which becomes `f32::NAN` |
| Materials.Serialize | reverie_engine/src/engine/material.rs:105-110 | the written document carries the colour, each channel as YAML text holds it, and both texture ids, and nothing of the resolved textures |
| Materials.Deserialize | reverie_engine/src/engine/material.rs:12-16 | a material read from its document has no resolved texture, since the texture field is skipped |
| Materials.DocumentRoundTrip | reverie_engine/src/engine/material.rs:58-66 | reading a document and writing it again gives the same document |
| Materials.MaterialRoundTrip | reverie_engine/src/engine/material.rs:97-111 | saving and loading keeps every non-NaN channel bit for bit, turns a NaN channel into `f32::NAN` and keeps both texture ids; it gives back the same material exactly when no texture is resolved and no channel is a NaN other than `f32::NAN` |
| Materials.NaNChannelNormalised | reverie_engine/src/engine/material.rs:97-111 | a material whose red channel is the negative NaN does not come back unchanged: its red channel reads back as `f32::NAN` |
| Materials.CreatedFile | reverie_engine/src/engine/material.rs:78-80 | the file created is `name + ".revmat"` inside the given directory |
| Materials.Create | reverie_engine/src/engine/material.rs:77-95 | the default material is written to that file, no other file changes, and it is returned |
| Materials.Load | reverie_engine/src/engine/material.rs:97-102 | a missing file panics; the material returned is the stored document read back, each `.nan` as exactly `f32::NAN`, so it serialises to that document and has no resolved texture |
| Materials.Save | reverie_engine/src/engine/material.rs:104-111 | the document is written exactly when the file name has an extension classified as a material; otherwise no file changes |
| Materials.DiffuseBytes | reverie_engine/src/engine/material.rs:116 | the diffuse colour is uploaded as 12 bytes |
| Materials.DiffuseBytesRoundTrip | reverie_engine/src/engine/material.rs:116 | those 12 bytes read back as words are the three channels in order |
| Materials.UpdateDiffuseBuffer | reverie_engine/src/engine/material.rs:115-117 | the colour's bytes go to the start of buffer 0; the rest of buffer 0 and every other buffer are unchanged |
| MaterialComponents.NewMaterialComponent | reverie_engine/src/engine/components/material.rs:19-26 | an id the registry does not resolve panics; otherwise the component keeps the id and the registry's handle for it |
| MaterialComponents.TypeName | reverie_engine/src/engine/components/material.rs:41-43 | the component's type name is "material" |
| MaterialComponents.DefaultMaterialComponent | reverie_engine/src/engine/components/material.rs:30-37 | the default component is always material 1 with the registry's handle for 1, whatever the device |
| FrameCounts.ShadowDrawsCount | reverie_engine/src/engine/renderer.rs:524-528 | the submesh loop of a depth pass records one indexed draw per submesh and no other draw or pass |
| FrameCounts.ShadowEntitiesCount | reverie_engine/src/engine/renderer.rs:522-529 | the entity join of a depth pass records one indexed draw per submesh of each entity with transform, mesh and material |
| FrameCounts.ShadowPassCount | reverie_engine/src/engine/renderer.rs:506-529 | one depth pass begins one pass and draws every qualifying submesh once |
| FrameCounts.CasterPassesCount | reverie_engine/src/engine/renderer.rs:501-530 | one light records a pass per view, each drawing every qualifying submesh |
| FrameCounts.ShadowPassesCount | reverie_engine/src/engine/renderer.rs:500-531 | the shadow loop records (sum of views) passes and (sum of views) x (qualifying submeshes) indexed draws |
| FrameCounts.OpaqueDrawsCount | reverie_engine/src/engine/renderer.rs:572-574 | one mesh draw per submesh of one entity |
| FrameCounts.OpaqueEntitiesCount | reverie_engine/src/engine/renderer.rs:570-575 | one mesh draw per qualifying submesh over all entities |
| FrameCounts.MainPassHeadCount | reverie_engine/src/engine/renderer.rs:538-568 | the main pass opens one pass and records exactly one non-indexed draw before its entity loop |
| FrameCounts.FrameCount | reverie_engine/src/engine/renderer.rs:500-575 | a frame records (sum of views) + 1 passes, (sum of views) x (qualifying submeshes) indexed draws, one mesh draw per qualifying submesh and exactly one 36-vertex draw |
| FrameCounts.FrameCountKind | reverie_engine/src/engine/renderer.rs:500-575 | the same count for one kind of command at a time |
| FrameOrder.ShadowMatchesOpaque | reverie_engine/src/engine/renderer.rs:522-574 | each depth pass draws, in the same order, the element counts of exactly the submeshes the main pass draws, one per qualifying submesh |
| FrameOrder.ShadowDrawLog | reverie_engine/src/engine/renderer.rs:525-527 | one submesh records one indexed draw of its element count, with no pass and no bind |
| FrameOrder.ShadowDrawsLog | reverie_engine/src/engine/renderer.rs:524-528 | the submesh loop draws the submeshes in order |
| FrameOrder.ShadowEntityLog | reverie_engine/src/engine/renderer.rs:522-528 | a qualifying entity binds its transform at slot 1 and draws its submeshes; any other entity records nothing |
| FrameOrder.ShadowEntitiesLog | reverie_engine/src/engine/renderer.rs:522-529 | the join binds the qualifying transforms at slot 1 and draws their submeshes, in storage order |
| FrameOrder.ShadowPassHeadLog | reverie_engine/src/engine/renderer.rs:506-520 | a depth pass opens on the face's view with depth cleared to 1.0 and no colour attachment, and binds the face's bind group at slot 0 |
| FrameOrder.ShadowPassLog | reverie_engine/src/engine/renderer.rs:506-529 | one depth pass: one pass begin, the face's group at slot 0, the qualifying transforms at slot 1, the qualifying submeshes drawn |
| FrameOrder.CasterPassesLog | reverie_engine/src/engine/renderer.rs:501-530 | the first n views of a light record their depth passes in view order, binding `bind_groups[i]` for view i |
| FrameOrder.ShadowPassesLog | reverie_engine/src/engine/renderer.rs:500-531 | the shadow loop records the depth passes light by light, view by view, and repeats the same draws and transforms in each |
| FrameOrder.OpaqueDrawsLog | reverie_engine/src/engine/renderer.rs:572-574 | the main-pass submesh loop draws each submesh with the entity's material, in order |
| FrameOrder.OpaqueEntityLog | reverie_engine/src/engine/renderer.rs:570-574 | a qualifying entity binds its transform at slot 0 and draws its submeshes; any other entity records nothing |
| FrameOrder.OpaqueEntitiesLog | reverie_engine/src/engine/renderer.rs:570-575 | the join binds the qualifying transforms at slot 0 and draws their submeshes, in storage order |
| FrameOrder.MainPassHeadLog | reverie_engine/src/engine/renderer.rs:538-568 | the main pass opens on the surface view and the renderer's depth view, binds skybox at 0, camera at 1, lights at 3, and draws 36 vertices |
| FrameOrder.MainPassLog | reverie_engine/src/engine/renderer.rs:537-576 | the main pass's one pass, its slot 0, 1 and 3 binds in order, and the skybox draw before every entity draw |
| FrameOrder.FrameLog | reverie_engine/src/engine/renderer.rs:500-576 | every depth pass precedes the main pass; the skybox draw follows every shadow draw and precedes every opaque draw; the bind order of slots 0 and 1 over the frame |
| BindSlots.ShadowSlotsMatch | reverie_engine/src/engine/renderer.rs:519-523 | in the depth passes, everything bound at slots 0 and 1 was made against the light pipeline's layouts 0 and 1 |
| BindSlots.MainSlotsMatch | reverie_engine/src/engine/renderer.rs:560-571 | in the main pass the first slot-0 group matches the skybox layout, later slot-0 groups match the render pipeline's layout 0, and camera and lights match its layouts 1 and 3 |
| Rendering.CreateDepthTexture | reverie_engine/src/engine/renderer.rs:475-491 | four handles are allocated: the returned view is the second, and the depth texture is the third and fourth with the requested size |
| Rendering.EntriesNumbered | reverie_engine/src/engine/renderer.rs:45-296 | every layout `new` builds numbers its bindings 0, 1, 2, ... so no binding index repeats |
| Rendering.Renderer.New | reverie_engine/src/engine/renderer.rs:36-448 | black clear colour; fresh depth texture; each slot overwritten with a fresh layout over its constant entries, in source order; the pipelines over [transform, camera, material, light], [shadow, transform] and [skybox] |
| Rendering.Renderer.Resize | reverie_engine/src/engine/renderer.rs:450-452 | only the texture view and the depth texture change, and the new depth texture has the new size |
| Rendering.Renderer.ShadowDrawLoop | reverie_engine/src/engine/renderer.rs:524-528 | the submesh loop appends the shadow draws of the submeshes |
| Rendering.Renderer.ShadowEntityBlock | reverie_engine/src/engine/renderer.rs:523-528 | one joined entity appends its transform bind and its shadow draws |
| Rendering.Renderer.ShadowEntityLoop | reverie_engine/src/engine/renderer.rs:522-529 | the join appends the per-entity commands of every entity in storage order |
| Rendering.Renderer.ShadowPassBlock | reverie_engine/src/engine/renderer.rs:506-529 | one face appends exactly one depth pass |
| Rendering.Renderer.CasterLoop | reverie_engine/src/engine/renderer.rs:501-530 | one light appends its depth passes, view by view |
| Rendering.Renderer.ShadowLoop | reverie_engine/src/engine/renderer.rs:500-531 | the outer loop appends every light's depth passes, light by light |
| Rendering.Renderer.OpaqueDrawLoop | reverie_engine/src/engine/renderer.rs:572-574 | the submesh loop appends one mesh draw per submesh with the entity's material |
| Rendering.Renderer.OpaqueEntityBlock | reverie_engine/src/engine/renderer.rs:571-574 | one joined entity appends its transform bind and its mesh draws |
| Rendering.Renderer.OpaqueEntityLoop | reverie_engine/src/engine/renderer.rs:570-575 | the join appends the per-entity commands of every entity in storage order |
| Rendering.Renderer.MainPassOpening | reverie_engine/src/engine/renderer.rs:538-568 | the main pass is opened and the skybox and the camera and light groups are set before any entity |
| Rendering.Renderer.Draw | reverie_engine/src/engine/renderer.rs:498-579 | a scene without a skybox, or a light with fewer bind groups than views, panics; otherwise the encoder gains exactly the frame's commands and the result is `Ok` |

## Left out

- Tangent and bitangent maths (resources.rs:101-141) is floating point. It is the parameter `TangentMaths` of `BuildMesh` and `LoadMesh`. The model proves only that it changes no other attribute. Its division by a zero determinant or by a zero count is not modelled.
- OBJ/MTL parsing (`tobj`), YAML (`serde_yaml`) and the file system are not modelled. The parser's output and the readable files are parameters: maps from path to parsed models, text or bytes. The persisted document is a datatype. The `mtl` loader callback's `unwrap` on a missing library is not modelled, because the model does not parse OBJ files.
- `AssetType::from_extension`, `Registry::get_material` and `Asset::load` are not part of this model. They are uninterpreted function parameters.
- GpuBinding.Gpu.New: the `load` parameter takes the asset, the device and the layout, but not the `&mut Registry` that `Asset::load` also receives. The registry's influence on what `load` builds, and any change `load` makes to the registry, are not modelled.
- The wgpu calls are opaque. Shader modules, pipeline layout objects, vertex layouts and labels are not represented. The texture helper `Texture::create_depth_texture` is two fresh handles, a texture and its view. Each created texture, view, buffer, bind group layout and pipeline is a fresh handle, and a pipeline is recorded with its layouts and its colour, culling and depth state.
- Rendering.CreateDepthTexture: the first texture's size and format, and which texture each view belongs to, are not recorded; only the order of the handles is.
- `draw_mesh` belongs to the `DrawModel` trait, which is not part of this model. Each call is one `DrawMesh(mesh, material)` command.
- Resources.CountTriangles: the counters are `i32`. The model takes an increment past `i32::MAX` to panic, as a debug build does. The wrap to a negative count in a release build is not modelled.
- Materials.MaterialRoundTrip: the YAML text is taken to read back every value that is not a NaN bit for bit, and to read `.nan` as `f32::NAN`. The text itself, and how `serde_yaml` prints floats, are not modelled.
- Resources.VertexWords: the vertex buffer's word order assumes `ModelVertex` is laid out `#[repr(C)]` in field order: position, texture coordinates, normal, tangent, bitangent. `asset::model`, which declares it, is not part of this model.
- Base.CastWords: it assumes `crate::util::cast_slice` reinterprets words in place on a little-endian target. `crate::util` is not part of this model.
- `Mutex`, `Arc` and `Lazy` are plain fields and slots. `Shared<T>` stands for `Arc<Mutex<T>>`. Locking and concurrent access are not modelled.
- Queue write timing is not modelled: a write through the queue takes effect immediately.
- `SurfaceError` is declared but never produced, because `draw` always returns `Ok`.
- The extent is stored with the depth texture. Its effect on the texture's contents is not modelled.
- `Renderer.textureView` is set by `new` and `resize` but never read by `draw`, which uses the depth texture's own view. The model records exactly that.
- The skybox layout's debug label repeats "shadow_layout". Labels are not modelled.
- `PathBuf` normalisation is not modelled: a path is its list of pushed segments, and an absolute segment does not replace the path.
- Rendering.Renderer.New: the render pipeline's state is recorded as built by the engine's `create_render_pipeline` helper. That helper is not part of this model, so its colour, culling and depth settings are not spelled out.
- The inspector UI (`InspectTexture`, imgui drag and drop) is not modelled.
- `window.rs` and the older `src/` crate are not modelled.
- `load_texture` (resources.rs:32-35) is not modelled. It only forwards to `load_binary` and to the texture helper, which is not part of this model.
