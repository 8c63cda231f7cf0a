/** The renderer object: `Renderer::new` filling the layout slots and
    building its three pipelines, `resize`, and `draw` recording one frame
    into a command encoder through its nested loops. */
module Rendering {
  import opened Base
  import opened Layouts
  import opened Resources
  import opened Frame
  import opened FrameOrder
  import BindSlots

  datatype Extent = Extent(width: nat, height: nat, depthOrArrayLayers: nat)

  /** The engine's texture record: the texture, its default view, its size. */
  datatype Texture = Texture(texture: Handle, view: Handle, size: Extent)

  /** The part of the surface configuration `new` reads. */
  datatype SurfaceConfig = SurfaceConfig(format: TextureFormat)

  /** What a frame can fail with; `draw` never produces one. */
  datatype SurfaceError = Lost | Outdated | Timeout | OutOfMemory

  /** The command encoder, as the log of calls made on it and on the passes
      it opened. */
  class CommandEncoder {
    var commands: seq<Command>

    constructor ()
      ensures commands == []
    {
      commands := [];
    }

    /** One call on the encoder or on its open pass. */
    method Record(c: Command)
      modifies this
      ensures commands == old(commands) + [c]
    {
      commands := commands + [c];
    }
  }

  /** `create_depth_texture`: a depth texture of the given size and its
      view, then a second depth texture made by the engine's texture helper. */
  method CreateDepthTexture(device: Device, extent: Extent) returns (view: Handle, depth: Texture)
    modifies device
    ensures view == Handle(old(device.next) + 1)
    ensures depth == Texture(Handle(old(device.next) + 2), Handle(old(device.next) + 3), extent)
    ensures device.next == old(device.next) + 4
  {
    var texture := device.Allocate();
    view := device.Allocate();
    var other := device.Allocate();
    var otherView := device.Allocate();
    depth := Texture(other, otherView, extent);
  }

  /** Each binding index of a layout equals its position. */
  predicate Numbered(entries: seq<LayoutEntry>) {
    forall i | 0 <= i < |entries| :: entries[i].binding == i
  }

  lemma NumberedDistinct(entries: seq<LayoutEntry>)
    requires Numbered(entries)
    ensures DistinctBindings(entries)
  {
  }

  /** Every layout `new` builds numbers its bindings from 0. */
  lemma EntriesNumbered()
    ensures Numbered(TRANSFORM_ENTRIES) && Numbered(MATERIAL_ENTRIES) && Numbered(CAMERA_ENTRIES)
    ensures Numbered(LIGHT_ENTRIES) && Numbered(SHADOW_ENTRIES) && Numbered(SKYBOX_ENTRIES)
  {
  }

  const SHADOW_DEPTH: DepthState := DepthState(Depth32Float, true, Less)

  const SKYBOX_DEPTH: DepthState := DepthState(Depth32Float, false, LessEqual)

  /** The light pipeline: depth only, front faces culled, depth written
      with `Less`. */
  const LIGHT_STATE: PipelineState := Spelled(None, Some(FrontFace), SHADOW_DEPTH)

  /** The skybox pipeline: one sRGB colour target, no culling, depth tested
      with `LessEqual` and not written. */
  const SKYBOX_STATE: PipelineState := Spelled(Some(Bgra8UnormSrgb), None, SKYBOX_DEPTH)

  class Renderer {
    var clearColor: Color
    var textureView: Handle
    var depthTexture: Texture
    var cameraLayout: Layout
    var renderPipeline: Pipeline
    var lightPipeline: Pipeline
    var skyboxPipeline: Pipeline

    /** `Renderer::new`: black clear colour, a depth texture of the given
        size, the five global layout slots overwritten in source order with
        the constant entries, and the three pipelines over their layouts in
        slot order. */
    constructor New(device: Device, registry: LayoutRegistry, config: SurfaceConfig, extent: Extent)
      modifies device, registry
      ensures clearColor == BLACK
      ensures textureView == Handle(old(device.next) + 1)
      ensures depthTexture == Texture(Handle(old(device.next) + 2), Handle(old(device.next) + 3), extent)
      ensures registry.transform == Some(Layout(Handle(old(device.next) + 4), TRANSFORM_ENTRIES))
      ensures registry.material == Some(Layout(Handle(old(device.next) + 5), MATERIAL_ENTRIES))
      ensures cameraLayout == Layout(Handle(old(device.next) + 6), CAMERA_ENTRIES)
      ensures registry.light == Some(Layout(Handle(old(device.next) + 7), LIGHT_ENTRIES))
      ensures registry.shadow == Some(Layout(Handle(old(device.next) + 8), SHADOW_ENTRIES))
      ensures registry.skybox == Some(Layout(Handle(old(device.next) + 9), SKYBOX_ENTRIES))
      ensures registry.Filled()
      ensures renderPipeline == Pipeline(Handle(old(device.next) + 10),
        [registry.transform.value, cameraLayout, registry.material.value, registry.light.value],
        FromContextHelper(config.format, Depth32Float))
      ensures lightPipeline == Pipeline(Handle(old(device.next) + 11),
        [registry.shadow.value, registry.transform.value], LIGHT_STATE)
      ensures skyboxPipeline == Pipeline(Handle(old(device.next) + 12), [registry.skybox.value], SKYBOX_STATE)
      ensures device.next == old(device.next) + 13
      ensures BindSlots.LaidOut(Pipelines())
    {
      EntriesNumbered();
      NumberedDistinct(TRANSFORM_ENTRIES);
      NumberedDistinct(MATERIAL_ENTRIES);
      NumberedDistinct(CAMERA_ENTRIES);
      NumberedDistinct(LIGHT_ENTRIES);
      NumberedDistinct(SHADOW_ENTRIES);
      NumberedDistinct(SKYBOX_ENTRIES);
      clearColor := BLACK;
      var tv, dt := CreateDepthTexture(device, extent);
      textureView, depthTexture := tv, dt;
      var transform := CreateBindGroupLayout(device, TRANSFORM_ENTRIES);
      registry.transform := Some(transform);
      var material := CreateBindGroupLayout(device, MATERIAL_ENTRIES);
      registry.material := Some(material);
      var camera := CreateBindGroupLayout(device, CAMERA_ENTRIES);
      cameraLayout := camera;
      var light := CreateBindGroupLayout(device, LIGHT_ENTRIES);
      registry.light := Some(light);
      var shadow := CreateBindGroupLayout(device, SHADOW_ENTRIES);
      registry.shadow := Some(shadow);
      var skybox := CreateBindGroupLayout(device, SKYBOX_ENTRIES);
      registry.skybox := Some(skybox);
      var h := device.Allocate();
      renderPipeline := Pipeline(h, [transform, camera, material, light],
                                 FromContextHelper(config.format, Depth32Float));
      h := device.Allocate();
      lightPipeline := Pipeline(h, [shadow, transform], LIGHT_STATE);
      h := device.Allocate();
      skyboxPipeline := Pipeline(h, [skybox], SKYBOX_STATE);
    }

    /** `resize`: a new depth texture and view of the new size; nothing
        else about the renderer changes. */
    method Resize(device: Device, extent: Extent)
      modifies this, device
      ensures textureView == Handle(old(device.next) + 1)
      ensures depthTexture == Texture(Handle(old(device.next) + 2), Handle(old(device.next) + 3), extent)
      ensures device.next == old(device.next) + 4
      ensures clearColor == old(clearColor) && cameraLayout == old(cameraLayout)
      ensures renderPipeline == old(renderPipeline) && lightPipeline == old(lightPipeline)
      ensures skyboxPipeline == old(skyboxPipeline)
    {
      var tv, dt := CreateDepthTexture(device, extent);
      textureView, depthTexture := tv, dt;
    }

    function Pipelines(): Pipelines
      reads this
    {
      Frame.Pipelines(renderPipeline, lightPipeline, skyboxPipeline)
    }

    // ----- The loops of `draw` -----

    /** The submesh loop of a depth pass. */
    method ShadowDrawLoop(encoder: CommandEncoder, ms: seq<Mesh>)
      modifies encoder
      ensures encoder.commands == old(encoder.commands) + ShadowDraws(ms)
    {
      var i := 0;
      while i < |ms|
        invariant 0 <= i <= |ms|
        invariant encoder.commands == old(encoder.commands) + ShadowDraws(ms[..i])
      {
        var m := ms[i];
        ghost var before := encoder.commands;
        encoder.Record(SetVertexBuffer(0, m.vertexBuffer.handle));
        encoder.Record(SetIndexBuffer(m.indexBuffer.handle));
        encoder.Record(DrawIndexed(m.elementCount));
        Assoc3(before, [SetVertexBuffer(0, m.vertexBuffer.handle)], [SetIndexBuffer(m.indexBuffer.handle)],
               [DrawIndexed(m.elementCount)]);
        ShadowDrawsNext(ms, i);
        Assoc(old(encoder.commands), ShadowDraws(ms[..i]), ShadowDraw(m));
        i := i + 1;
      }
      assert ms[..|ms|] == ms;
    }

    /** One joined entity: its transform bound at slot 1, then its submeshes. */
    method ShadowEntityBlock(encoder: CommandEncoder, e: Entity)
      modifies encoder
      ensures encoder.commands == old(encoder.commands) + ShadowEntity(e)
    {
      if e.transform.Some? && e.mesh.Some? && e.material.Some? {
        encoder.Record(SetBindGroup(1, e.transform.value.bindGroup));
        ShadowDrawLoop(encoder, e.mesh.value.submeshes);
        Assoc(old(encoder.commands), [SetBindGroup(1, e.transform.value.bindGroup)], ShadowDraws(e.mesh.value.submeshes));
      } else {
        assert old(encoder.commands) + ShadowEntity(e) == old(encoder.commands);
      }
    }

    /** The joined-entity loop of a depth pass. */
    method ShadowEntityLoop(encoder: CommandEncoder, es: seq<Entity>)
      modifies encoder
      ensures encoder.commands == old(encoder.commands) + ShadowEntities(es)
    {
      var i := 0;
      while i < |es|
        invariant 0 <= i <= |es|
        invariant encoder.commands == old(encoder.commands) + ShadowEntities(es[..i])
      {
        var e := es[i];
        ShadowEntityBlock(encoder, e);
        ShadowEntitiesNext(es, i);
        Assoc(old(encoder.commands), ShadowEntities(es[..i]), ShadowEntity(e));
        i := i + 1;
      }
      assert es[..|es|] == es;
    }

    /** One depth pass, for view `view` of a light with bind group `group`. */
    method ShadowPassBlock(encoder: CommandEncoder, view: Handle, group: BindGroup, es: seq<Entity>)
      modifies encoder
      ensures encoder.commands == old(encoder.commands) + ShadowPass(lightPipeline, view, group, es)
    {
      encoder.Record(BeginPass(DepthOnlyPass(view, MAX_DEPTH)));
      encoder.Record(SetPipeline(lightPipeline));
      encoder.Record(SetBindGroup(0, group));
      ShadowEntityLoop(encoder, es);
      encoder.Record(EndPass);
    }

    /** The view loop over one light. */
    method CasterLoop(encoder: CommandEncoder, c: ShadowCaster, es: seq<Entity>)
      requires |c.views| <= |c.bindGroups|
      modifies encoder
      ensures encoder.commands == old(encoder.commands) + CasterPasses(lightPipeline, c, |c.views|, es)
    {
      var i := 0;
      while i < |c.views|
        invariant 0 <= i <= |c.views|
        invariant encoder.commands == old(encoder.commands) + CasterPasses(lightPipeline, c, i, es)
      {
        ShadowPassBlock(encoder, c.views[i], c.bindGroups[i], es);
        Assoc(old(encoder.commands), CasterPasses(lightPipeline, c, i, es),
              ShadowPass(lightPipeline, c.views[i], c.bindGroups[i], es));
        i := i + 1;
      }
    }

    /** The light loop: every view of every point light. */
    method ShadowLoop(encoder: CommandEncoder, cs: seq<ShadowCaster>, es: seq<Entity>)
      requires CastersCovered(cs)
      modifies encoder
      ensures encoder.commands == old(encoder.commands) + ShadowPasses(lightPipeline, cs, es)
    {
      var i := 0;
      while i < |cs|
        invariant 0 <= i <= |cs|
        invariant encoder.commands == old(encoder.commands) + ShadowPasses(lightPipeline, cs[..i], es)
      {
        assert cs[i] in cs;
        CasterLoop(encoder, cs[i], es);
        ShadowPassesNext(lightPipeline, cs, i, es);
        Assoc(old(encoder.commands), ShadowPasses(lightPipeline, cs[..i], es),
              CasterPasses(lightPipeline, cs[i], |cs[i].views|, es));
        i := i + 1;
      }
      assert cs[..|cs|] == cs;
    }

    /** The submesh loop of the main pass. */
    method OpaqueDrawLoop(encoder: CommandEncoder, ms: seq<Mesh>, material: GpuBinding.Gpu<Materials.Material>)
      modifies encoder
      ensures encoder.commands == old(encoder.commands) + OpaqueDraws(ms, material)
    {
      var i := 0;
      while i < |ms|
        invariant 0 <= i <= |ms|
        invariant encoder.commands == old(encoder.commands) + OpaqueDraws(ms[..i], material)
      {
        encoder.Record(DrawMesh(ms[i], material));
        OpaqueDrawsNext(ms, i, material);
        Assoc(old(encoder.commands), OpaqueDraws(ms[..i], material), [DrawMesh(ms[i], material)]);
        i := i + 1;
      }
      assert ms[..|ms|] == ms;
    }

    /** One joined entity: its transform bound at slot 0, then its submeshes. */
    method OpaqueEntityBlock(encoder: CommandEncoder, e: Entity)
      modifies encoder
      ensures encoder.commands == old(encoder.commands) + OpaqueEntity(e)
    {
      if e.transform.Some? && e.mesh.Some? && e.material.Some? {
        encoder.Record(SetBindGroup(0, e.transform.value.bindGroup));
        OpaqueDrawLoop(encoder, e.mesh.value.submeshes, e.material.value.material);
        Assoc(old(encoder.commands), [SetBindGroup(0, e.transform.value.bindGroup)],
              OpaqueDraws(e.mesh.value.submeshes, e.material.value.material));
      } else {
        assert old(encoder.commands) + OpaqueEntity(e) == old(encoder.commands);
      }
    }

    /** The joined-entity loop of the main pass. */
    method OpaqueEntityLoop(encoder: CommandEncoder, es: seq<Entity>)
      modifies encoder
      ensures encoder.commands == old(encoder.commands) + OpaqueEntities(es)
    {
      var i := 0;
      while i < |es|
        invariant 0 <= i <= |es|
        invariant encoder.commands == old(encoder.commands) + OpaqueEntities(es[..i])
      {
        var e := es[i];
        OpaqueEntityBlock(encoder, e);
        OpaqueEntitiesNext(es, i);
        Assoc(old(encoder.commands), OpaqueEntities(es[..i]), OpaqueEntity(e));
        i := i + 1;
      }
      assert es[..|es|] == es;
    }

    /** The main pass up to its entity loop: clear, skybox, then the render
        pipeline with the camera and the lights bound. */
    method MainPassOpening(encoder: CommandEncoder, view: Handle, sky: Skybox, camera: Camera, lights: BindGroup)
      modifies encoder
      ensures encoder.commands
        == old(encoder.commands) + MainPassHead(Pipelines(), clearColor, view, depthTexture.view, sky, camera, lights)
    {
      var c0 := BeginPass(ColorDepthPass(view, clearColor, depthTexture.view, MAX_DEPTH));
      var c1, c2, c3 := SetPipeline(skyboxPipeline), SetBindGroup(0, sky.bindGroup), SetVertexBuffer(0, sky.vertexBuffer);
      var c4, c5, c6, c7 := Command.Draw(SKYBOX_VERTICES), SetPipeline(renderPipeline), SetBindGroup(1, camera.bindGroup), SetBindGroup(3, lights);
      ghost var start := encoder.commands;
      encoder.Record(c0);
      encoder.Record(c1);
      Assoc(start, [c0], [c1]);
      encoder.Record(c2);
      Assoc(start, [c0] + [c1], [c2]);
      encoder.Record(c3);
      Assoc(start, [c0] + [c1] + [c2], [c3]);
      encoder.Record(c4);
      Assoc(start, [c0] + [c1] + [c2] + [c3], [c4]);
      encoder.Record(c5);
      Assoc(start, [c0] + [c1] + [c2] + [c3] + [c4], [c5]);
      encoder.Record(c6);
      Assoc(start, [c0] + [c1] + [c2] + [c3] + [c4] + [c5], [c6]);
      encoder.Record(c7);
      Assoc(start, [c0] + [c1] + [c2] + [c3] + [c4] + [c5] + [c6], [c7]);
    }

    /** `Pass::draw`: the depth passes of every light, then the main pass
        with the skybox and the opaque geometry; the result is always `Ok`.
        The skybox is unwrapped and `bind_groups` is indexed by view
        position, hence the preconditions. */
    method Draw(view: Handle, scene: Scene, camera: Camera, encoder: CommandEncoder)
      returns (r: Result<(), SurfaceError>)
      requires scene.skybox.Some?
      requires CastersCovered(scene.lightManager.pointShadows)
      modifies encoder
      ensures r == Ok(())
      ensures encoder.commands
        == old(encoder.commands) + FrameCommands(Pipelines(), clearColor, depthTexture.view, view, scene, camera)
    {
      var es, lights := scene.entities, scene.lightManager.bindGroup;
      ghost var start := encoder.commands;
      ShadowLoop(encoder, scene.lightManager.pointShadows, es);
      ghost var shadows := ShadowPasses(lightPipeline, scene.lightManager.pointShadows, es);
      ghost var head := MainPassHead(Pipelines(), clearColor, view, depthTexture.view, scene.skybox.value, camera, lights);
      MainPassOpening(encoder, view, scene.skybox.value, camera, lights);
      OpaqueEntityLoop(encoder, es);
      encoder.Record(EndPass);
      assert encoder.commands == start + shadows + head + OpaqueEntities(es) + [EndPass];
      Assoc3(start + shadows, head, OpaqueEntities(es), [EndPass]);
      Assoc(start, shadows, head + OpaqueEntities(es) + [EndPass]);
      r := Ok(());
    }
  }

  lemma Assoc<T>(a: seq<T>, b: seq<T>, c: seq<T>)
    ensures a + b + c == a + (b + c)
  {
  }

  lemma Assoc3<T>(a: seq<T>, b: seq<T>, c: seq<T>, d: seq<T>)
    ensures a + b + c + d == a + (b + c + d)
  {
  }

  lemma ShadowDrawsNext(ms: seq<Mesh>, i: nat)
    requires i < |ms|
    ensures ShadowDraws(ms[..i + 1]) == ShadowDraws(ms[..i]) + ShadowDraw(ms[i])
  {
    assert ms[..i + 1][..i] == ms[..i];
  }

  lemma ShadowEntitiesNext(es: seq<Entity>, i: nat)
    requires i < |es|
    ensures ShadowEntities(es[..i + 1]) == ShadowEntities(es[..i]) + ShadowEntity(es[i])
  {
    assert es[..i + 1][..i] == es[..i];
  }

  lemma OpaqueDrawsNext(ms: seq<Mesh>, i: nat, material: GpuBinding.Gpu<Materials.Material>)
    requires i < |ms|
    ensures OpaqueDraws(ms[..i + 1], material) == OpaqueDraws(ms[..i], material) + [DrawMesh(ms[i], material)]
  {
    assert ms[..i + 1][..i] == ms[..i];
  }

  lemma OpaqueEntitiesNext(es: seq<Entity>, i: nat)
    requires i < |es|
    ensures OpaqueEntities(es[..i + 1]) == OpaqueEntities(es[..i]) + OpaqueEntity(es[i])
  {
    assert es[..i + 1][..i] == es[..i];
  }

  lemma ShadowPassesNext(light: Pipeline, cs: seq<ShadowCaster>, i: nat, es: seq<Entity>)
    requires CastersCovered(cs) && i < |cs|
    ensures CastersCovered(cs[..i]) && CastersCovered(cs[..i + 1]) && |cs[i].views| <= |cs[i].bindGroups|
    ensures ShadowPasses(light, cs[..i + 1], es)
      == ShadowPasses(light, cs[..i], es) + CasterPasses(light, cs[i], |cs[i].views|, es)
  {
    assert cs[i] in cs;
    assert CastersCovered(cs[..i + 1]) by {
      forall x | x in cs[..i + 1] ensures x in cs { }
    }
    assert CastersCovered(cs[..i]) by {
      forall x | x in cs[..i] ensures x in cs { }
    }
    assert cs[..i + 1][..i] == cs[..i];
  }
}
