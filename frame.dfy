/** What `Renderer::draw` records into the command encoder, as functions of
    the scene: the shadow passes, then one pass holding the skybox and the
    opaque geometry. */
module Frame {
  import opened Base
  import opened Layouts
  import opened GpuBinding
  import opened Materials
  import opened Resources
  import opened MaterialComponents

  // ----- Pipelines -----

  datatype TextureFormat = Bgra8UnormSrgb | Depth32Float | SurfaceFormat(id: nat)

  datatype CompareFunction = Less | LessEqual

  datatype Face = FrontFace | BackFace

  datatype DepthState = DepthState(format: TextureFormat, writeEnabled: bool, compare: CompareFunction)

  /** How a pipeline draws: either built by the engine's
      `create_render_pipeline` helper (not part of this model) from a colour
      and a depth format, or spelled out in `Renderer::new`. */
  datatype PipelineState =
    | FromContextHelper(colorFormat: TextureFormat, depthFormat: TextureFormat)
    | Spelled(colorTarget: Option<TextureFormat>, cull: Option<Face>, depth: DepthState)

  /** A render pipeline and the bind group layouts of its pipeline layout,
      in slot order. */
  datatype Pipeline = Pipeline(handle: Handle, layouts: seq<Layout>, state: PipelineState)

  datatype Pipelines = Pipelines(render: Pipeline, light: Pipeline, skybox: Pipeline)

  // ----- Scene -----

  datatype TransformComponent = TransformComponent(bindGroup: BindGroup)

  /** The mesh component: an id and the shared list of device meshes. */
  datatype MeshComponent = MeshComponent(id: nat, submeshes: seq<Mesh>)

  /** One entity of the component store, by which components it carries. */
  datatype Entity = Entity(transform: Option<TransformComponent>, mesh: Option<MeshComponent>,
                           material: Option<MaterialComponent>)

  /** One point light: a depth view and a bind group per cube face. */
  datatype ShadowCaster = ShadowCaster(views: seq<Handle>, bindGroups: seq<BindGroup>)

  datatype LightManager = LightManager(pointShadows: seq<ShadowCaster>, bindGroup: BindGroup)

  datatype Skybox = Skybox(bindGroup: BindGroup, vertexBuffer: Handle)

  /** Entities in storage order, which is the order joins visit them in. */
  datatype Scene = Scene(entities: seq<Entity>, lightManager: LightManager, skybox: Option<Skybox>)

  datatype Camera = Camera(bindGroup: BindGroup)

  /** The join over transforms, meshes and materials yields exactly the
      entities that carry all three. */
  predicate Qualifies(e: Entity) {
    e.transform.Some? && e.mesh.Some? && e.material.Some?
  }

  /** The shadow pass indexes `bind_groups` with the view's position. */
  predicate CastersCovered(cs: seq<ShadowCaster>) {
    forall c :: c in cs ==> |c.views| <= |c.bindGroups|
  }

  // ----- Commands -----

  datatype Color = Color(r: real, g: real, b: real, a: real)

  const BLACK: Color := Color(0.0, 0.0, 0.0, 1.0)

  /** Depth clear value of every pass: the far plane. */
  const MAX_DEPTH: real := 1.0

  /** The skybox cube is drawn from 36 vertices without an index buffer. */
  const SKYBOX_VERTICES: nat := 36

  datatype PassDesc =
    | DepthOnlyPass(depthView: Handle, depthClear: real)
    | ColorDepthPass(colorView: Handle, clearColor: Color, depthView: Handle, depthClear: real)

  /** One call on the encoder or on an open render pass. `EndPass` is the
      pass being dropped; index buffers are always `Uint32`; `DrawMesh` is
      the `draw_mesh` call of the model-drawing extension. */
  datatype Command =
    | BeginPass(desc: PassDesc)
    | SetPipeline(pipeline: Pipeline)
    | SetBindGroup(slot: nat, group: BindGroup)
    | SetVertexBuffer(slot: nat, buffer: Handle)
    | SetIndexBuffer(buffer: Handle)
    | DrawIndexed(indexCount: u32)
    | Draw(vertexCount: nat)
    | DrawMesh(mesh: Mesh, material: Gpu<Material>)
    | EndPass

  // ----- Shadow passes -----

  function ShadowDraw(m: Mesh): seq<Command> {
    [SetVertexBuffer(0, m.vertexBuffer.handle)] + [SetIndexBuffer(m.indexBuffer.handle)] + [DrawIndexed(m.elementCount)]
  }

  function ShadowDraws(ms: seq<Mesh>): seq<Command> {
    if ms == [] then [] else ShadowDraws(ms[..|ms| - 1]) + ShadowDraw(ms[|ms| - 1])
  }

  function ShadowEntity(e: Entity): seq<Command> {
    if Qualifies(e) then [SetBindGroup(1, e.transform.value.bindGroup)] + ShadowDraws(e.mesh.value.submeshes)
    else []
  }

  function ShadowEntities(es: seq<Entity>): seq<Command> {
    if es == [] then [] else ShadowEntities(es[..|es| - 1]) + ShadowEntity(es[|es| - 1])
  }

  function ShadowPassHead(light: Pipeline, view: Handle, group: BindGroup): seq<Command> {
    [BeginPass(DepthOnlyPass(view, MAX_DEPTH))] + [SetPipeline(light)] + [SetBindGroup(0, group)]
  }

  /** One depth-only pass for one cube face of one light. */
  function ShadowPass(light: Pipeline, view: Handle, group: BindGroup, es: seq<Entity>): seq<Command> {
    ShadowPassHead(light, view, group) + ShadowEntities(es) + [EndPass]
  }

  /** The passes for the first `n` views of one light. */
  function CasterPasses(light: Pipeline, c: ShadowCaster, n: nat, es: seq<Entity>): seq<Command>
    requires n <= |c.views| <= |c.bindGroups|
  {
    if n == 0 then []
    else CasterPasses(light, c, n - 1, es) + ShadowPass(light, c.views[n - 1], c.bindGroups[n - 1], es)
  }

  function ShadowPasses(light: Pipeline, cs: seq<ShadowCaster>, es: seq<Entity>): seq<Command>
    requires CastersCovered(cs)
  {
    if cs == [] then []
    else
      var c := cs[|cs| - 1];
      ShadowPasses(light, cs[..|cs| - 1], es) + CasterPasses(light, c, |c.views|, es)
  }

  // ----- Skybox and opaque pass -----

  function OpaqueDraws(ms: seq<Mesh>, material: Gpu<Material>): seq<Command> {
    if ms == [] then [] else OpaqueDraws(ms[..|ms| - 1], material) + [DrawMesh(ms[|ms| - 1], material)]
  }

  function OpaqueEntity(e: Entity): seq<Command> {
    if Qualifies(e) then
      [SetBindGroup(0, e.transform.value.bindGroup)] + OpaqueDraws(e.mesh.value.submeshes, e.material.value.material)
    else []
  }

  function OpaqueEntities(es: seq<Entity>): seq<Command> {
    if es == [] then [] else OpaqueEntities(es[..|es| - 1]) + OpaqueEntity(es[|es| - 1])
  }

  /** Everything before the entity loop of the main pass. */
  function MainPassHead(pl: Pipelines, clearColor: Color, view: Handle, depthView: Handle,
                        sky: Skybox, camera: Camera, lights: BindGroup): seq<Command>
  {
    [BeginPass(ColorDepthPass(view, clearColor, depthView, MAX_DEPTH))]
      + [SetPipeline(pl.skybox)] + [SetBindGroup(0, sky.bindGroup)] + [SetVertexBuffer(0, sky.vertexBuffer)]
      + [Draw(SKYBOX_VERTICES)]
      + [SetPipeline(pl.render)] + [SetBindGroup(1, camera.bindGroup)] + [SetBindGroup(3, lights)]
  }

  function MainPass(pl: Pipelines, clearColor: Color, view: Handle, depthView: Handle,
                    sky: Skybox, camera: Camera, lights: BindGroup, es: seq<Entity>): seq<Command>
  {
    MainPassHead(pl, clearColor, view, depthView, sky, camera, lights) + OpaqueEntities(es) + [EndPass]
  }

  /** Everything one call of `draw` records. */
  function FrameCommands(pl: Pipelines, clearColor: Color, depthView: Handle, view: Handle,
                         scene: Scene, camera: Camera): seq<Command>
    requires scene.skybox.Some? && CastersCovered(scene.lightManager.pointShadows)
  {
    ShadowPasses(pl.light, scene.lightManager.pointShadows, scene.entities)
      + MainPass(pl, clearColor, view, depthView, scene.skybox.value, camera,
                 scene.lightManager.bindGroup, scene.entities)
  }
}
