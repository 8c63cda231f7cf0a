/** How many passes and draws one frame records. */
module FrameCounts {
  import opened Base
  import opened Resources
  import opened Materials
  import opened GpuBinding
  import opened Frame

  datatype Kind = PassBegin | IndexedDraw | MeshDraw | PlainDraw | Other

  function KindOf(c: Command): Kind {
    match c
    case BeginPass(_) => PassBegin
    case DrawIndexed(_) => IndexedDraw
    case DrawMesh(_, _) => MeshDraw
    case Draw(_) => PlainDraw
    case _ => Other
  }

  /** How many commands of kind `k` a command log holds. */
  function Count(cmds: seq<Command>, k: Kind): nat {
    if cmds == [] then 0 else Count(cmds[..|cmds| - 1], k) + (if KindOf(cmds[|cmds| - 1]) == k then 1 else 0)
  }

  lemma {:induction false} CountAppend(a: seq<Command>, b: seq<Command>, k: Kind)
    ensures Count(a + b, k) == Count(a, k) + Count(b, k)
  {
    if b == [] {
      assert a + b == a;
    } else {
      assert (a + b)[..|a + b| - 1] == a + b[..|b| - 1];
      CountAppend(a, b[..|b| - 1], k);
    }
  }

  /** Number of cube-face views over all shadow casters. */
  function TotalViews(cs: seq<ShadowCaster>): nat {
    if cs == [] then 0 else TotalViews(cs[..|cs| - 1]) + |cs[|cs| - 1].views|
  }

  function SubmeshCount(e: Entity): nat {
    if Qualifies(e) then |e.mesh.value.submeshes| else 0
  }

  /** Number of submeshes over the entities that carry transform, mesh and
      material. */
  function QualifyingSubmeshes(es: seq<Entity>): nat {
    if es == [] then 0 else QualifyingSubmeshes(es[..|es| - 1]) + SubmeshCount(es[|es| - 1])
  }

  lemma CountSnoc(a: seq<Command>, c: Command, k: Kind)
    ensures Count(a + [c], k) == Count(a, k) + (if KindOf(c) == k then 1 else 0)
  {
    assert (a + [c])[..|a|] == a;
  }

  lemma CountOne(c: Command, k: Kind)
    ensures Count([c], k) == if KindOf(c) == k then 1 else 0
  {
    assert [c][..0] == [];
  }

  lemma {:induction false} ShadowDrawsCount(ms: seq<Mesh>, k: Kind)
    requires k != Other
    ensures Count(ShadowDraws(ms), k) == if k == IndexedDraw then |ms| else 0
  {
    if ms != [] {
      var m := ms[|ms| - 1];
      ShadowDrawsCount(ms[..|ms| - 1], k);
      CountAppend(ShadowDraws(ms[..|ms| - 1]), ShadowDraw(m), k);
      var a, b := SetVertexBuffer(0, m.vertexBuffer.handle), SetIndexBuffer(m.indexBuffer.handle);
      CountOne(a, k);
      CountSnoc([a], b, k);
      CountSnoc([a] + [b], DrawIndexed(m.elementCount), k);
    }
  }

  lemma ShadowEntityCount(e: Entity, k: Kind)
    requires k != Other
    ensures Count(ShadowEntity(e), k) == if k == IndexedDraw then SubmeshCount(e) else 0
  {
    if Qualifies(e) {
      var head := [SetBindGroup(1, e.transform.value.bindGroup)];
      CountAppend(head, ShadowDraws(e.mesh.value.submeshes), k);
      ShadowDrawsCount(e.mesh.value.submeshes, k);
      CountOne(head[0], k);
    }
  }

  lemma {:induction false} ShadowEntitiesCount(es: seq<Entity>, k: Kind)
    requires k != Other
    ensures Count(ShadowEntities(es), k) == if k == IndexedDraw then QualifyingSubmeshes(es) else 0
  {
    if es != [] {
      ShadowEntitiesCount(es[..|es| - 1], k);
      CountAppend(ShadowEntities(es[..|es| - 1]), ShadowEntity(es[|es| - 1]), k);
      ShadowEntityCount(es[|es| - 1], k);
    }
  }

  lemma ShadowPassCount(light: Pipeline, view: Handle, group: Layouts.BindGroup, es: seq<Entity>, k: Kind)
    requires k != Other
    ensures Count(ShadowPass(light, view, group, es), k)
      == if k == PassBegin then 1 else if k == IndexedDraw then QualifyingSubmeshes(es) else 0
  {
    var head := ShadowPassHead(light, view, group);
    var b := BeginPass(DepthOnlyPass(view, MAX_DEPTH));
    CountOne(b, k);
    CountSnoc([b], SetPipeline(light), k);
    CountSnoc([b] + [SetPipeline(light)], SetBindGroup(0, group), k);
    ShadowEntitiesCount(es, k);
    CountAppend(head, ShadowEntities(es), k);
    CountSnoc(head + ShadowEntities(es), EndPass, k);
  }

  lemma {:induction false} CasterPassesCount(light: Pipeline, c: ShadowCaster, n: nat, es: seq<Entity>, k: Kind)
    requires n <= |c.views| <= |c.bindGroups|
    requires k != Other
    ensures Count(CasterPasses(light, c, n, es), k)
      == if k == PassBegin then n else if k == IndexedDraw then n * QualifyingSubmeshes(es) else 0
  {
    if n > 0 {
      CasterPassesCount(light, c, n - 1, es, k);
      ShadowPassCount(light, c.views[n - 1], c.bindGroups[n - 1], es, k);
      CountAppend(CasterPasses(light, c, n - 1, es), ShadowPass(light, c.views[n - 1], c.bindGroups[n - 1], es), k);
      assert (n - 1) * QualifyingSubmeshes(es) + QualifyingSubmeshes(es) == n * QualifyingSubmeshes(es);
    }
  }

  lemma Distribute(a: nat, b: nat, q: nat)
    ensures a * q + b * q == (a + b) * q
  {
  }

  /** One depth pass per (light, view) pair, each drawing every submesh of
      every qualifying entity once. */
  lemma {:induction false} ShadowPassesCount(light: Pipeline, cs: seq<ShadowCaster>, es: seq<Entity>, k: Kind)
    requires CastersCovered(cs)
    requires k != Other
    ensures Count(ShadowPasses(light, cs, es), k)
      == if k == PassBegin then TotalViews(cs)
         else if k == IndexedDraw then TotalViews(cs) * QualifyingSubmeshes(es) else 0
  {
    if cs != [] {
      var c := cs[|cs| - 1];
      var init := cs[..|cs| - 1];
      assert c in cs;
      assert CastersCovered(init) by {
        forall x | x in init ensures x in cs { }
      }
      var t0, v, q := TotalViews(init), |c.views|, QualifyingSubmeshes(es);
      assert TotalViews(cs) == t0 + v;
      var a, b := ShadowPasses(light, init, es), CasterPasses(light, c, v, es);
      assert ShadowPasses(light, cs, es) == a + b;
      ShadowPassesCount(light, init, es, k);
      CasterPassesCount(light, c, v, es, k);
      CountAppend(a, b, k);
      if k == IndexedDraw {
        Distribute(t0, v, q);
      }
    }
  }

  lemma {:induction false} OpaqueDrawsCount(ms: seq<Mesh>, material: Gpu<Material>, k: Kind)
    requires k != Other
    ensures Count(OpaqueDraws(ms, material), k) == if k == MeshDraw then |ms| else 0
  {
    if ms != [] {
      OpaqueDrawsCount(ms[..|ms| - 1], material, k);
      CountSnoc(OpaqueDraws(ms[..|ms| - 1], material), DrawMesh(ms[|ms| - 1], material), k);
    }
  }

  lemma {:induction false} OpaqueEntitiesCount(es: seq<Entity>, k: Kind)
    requires k != Other
    ensures Count(OpaqueEntities(es), k) == if k == MeshDraw then QualifyingSubmeshes(es) else 0
  {
    if es != [] {
      var e := es[|es| - 1];
      OpaqueEntitiesCount(es[..|es| - 1], k);
      CountAppend(OpaqueEntities(es[..|es| - 1]), OpaqueEntity(e), k);
      if Qualifies(e) {
        var head := [SetBindGroup(0, e.transform.value.bindGroup)];
        CountAppend(head, OpaqueDraws(e.mesh.value.submeshes, e.material.value.material), k);
        OpaqueDrawsCount(e.mesh.value.submeshes, e.material.value.material, k);
        CountOne(head[0], k);
      }
    }
  }

  lemma MainPassHeadCount(pl: Pipelines, clearColor: Color, view: Handle, depthView: Handle,
                          sky: Skybox, camera: Camera, lights: Layouts.BindGroup, k: Kind)
    requires k != Other
    ensures Count(MainPassHead(pl, clearColor, view, depthView, sky, camera, lights), k)
      == if k == PassBegin || k == PlainDraw then 1 else 0
  {
    var c0 := BeginPass(ColorDepthPass(view, clearColor, depthView, MAX_DEPTH));
    var c1, c2, c3 := SetPipeline(pl.skybox), SetBindGroup(0, sky.bindGroup), SetVertexBuffer(0, sky.vertexBuffer);
    var c4, c5, c6 := Draw(SKYBOX_VERTICES), SetPipeline(pl.render), SetBindGroup(1, camera.bindGroup);
    CountOne(c0, k);
    CountSnoc([c0], c1, k);
    CountSnoc([c0] + [c1], c2, k);
    CountSnoc([c0] + [c1] + [c2], c3, k);
    CountSnoc([c0] + [c1] + [c2] + [c3], c4, k);
    CountSnoc([c0] + [c1] + [c2] + [c3] + [c4], c5, k);
    CountSnoc([c0] + [c1] + [c2] + [c3] + [c4] + [c5], c6, k);
    CountSnoc([c0] + [c1] + [c2] + [c3] + [c4] + [c5] + [c6], SetBindGroup(3, lights), k);
  }

  /** Per frame: one pass per (light, view) pair plus the main pass;
      (sum of views) x (sum of qualifying submeshes) indexed shadow draws;
      one mesh draw per qualifying submesh; exactly one non-indexed draw. */
  lemma FrameCount(pl: Pipelines, clearColor: Color, depthView: Handle, view: Handle,
                   scene: Scene, camera: Camera)
    requires scene.skybox.Some? && CastersCovered(scene.lightManager.pointShadows)
    ensures var f, cs, es := FrameCommands(pl, clearColor, depthView, view, scene, camera),
                             scene.lightManager.pointShadows, scene.entities;
      && Count(f, PassBegin) == TotalViews(cs) + 1
      && Count(f, IndexedDraw) == TotalViews(cs) * QualifyingSubmeshes(es)
      && Count(f, MeshDraw) == QualifyingSubmeshes(es)
      && Count(f, PlainDraw) == 1
  {
    forall k | k != Other
      ensures Count(FrameCommands(pl, clearColor, depthView, view, scene, camera), k)
        == if k == PassBegin then TotalViews(scene.lightManager.pointShadows) + 1
           else if k == IndexedDraw then TotalViews(scene.lightManager.pointShadows) * QualifyingSubmeshes(scene.entities)
           else if k == MeshDraw then QualifyingSubmeshes(scene.entities)
           else 1
    {
      FrameCountKind(pl, clearColor, depthView, view, scene, camera, k);
    }
  }

  lemma FrameCountKind(pl: Pipelines, clearColor: Color, depthView: Handle, view: Handle,
                       scene: Scene, camera: Camera, k: Kind)
    requires scene.skybox.Some? && CastersCovered(scene.lightManager.pointShadows)
    requires k != Other
    ensures Count(FrameCommands(pl, clearColor, depthView, view, scene, camera), k)
      == if k == PassBegin then TotalViews(scene.lightManager.pointShadows) + 1
         else if k == IndexedDraw then TotalViews(scene.lightManager.pointShadows) * QualifyingSubmeshes(scene.entities)
         else if k == MeshDraw then QualifyingSubmeshes(scene.entities)
         else 1
  {
    var cs, es := scene.lightManager.pointShadows, scene.entities;
    var head := MainPassHead(pl, clearColor, view, depthView, scene.skybox.value, camera, scene.lightManager.bindGroup);
    ShadowPassesCount(pl.light, cs, es, k);
    MainPassHeadCount(pl, clearColor, view, depthView, scene.skybox.value, camera, scene.lightManager.bindGroup, k);
    OpaqueEntitiesCount(es, k);
    CountAppend(head, OpaqueEntities(es), k);
    CountSnoc(head + OpaqueEntities(es), EndPass, k);
    CountAppend(ShadowPasses(pl.light, cs, es), head + OpaqueEntities(es) + [EndPass], k);
  }
}
