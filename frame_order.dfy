/** Which passes, bind groups and draws one frame records, and in what
    order: each is read off the command log and compared with a reference
    sequence built from the scene alone. */
module FrameOrder {
  import opened Base
  import opened Layouts
  import opened Resources
  import opened Materials
  import opened GpuBinding
  import opened Frame
  import opened FrameCounts

  // ----- Reading a log -----

  /** A draw call: indexed (shadow passes), plain (skybox) or through the
      model-drawing extension (opaque geometry, with its material). */
  datatype DrawCall =
    | IndexedCall(indexCount: u32)
    | PlainCall(vertexCount: nat)
    | MeshCall(mesh: Mesh, material: Gpu<Material>)

  function PassIn(c: Command): seq<PassDesc> {
    if c.BeginPass? then [c.desc] else []
  }

  function DrawIn(c: Command): seq<DrawCall> {
    match c
    case DrawIndexed(n) => [IndexedCall(n)]
    case Draw(n) => [PlainCall(n)]
    case DrawMesh(m, mat) => [MeshCall(m, mat)]
    case _ => []
  }

  function BindIn(c: Command, slot: nat): seq<BindGroup> {
    if c.SetBindGroup? && c.slot == slot then [c.group] else []
  }

  /** The passes a log opens, in order. */
  function Passes(cmds: seq<Command>): seq<PassDesc> {
    if cmds == [] then [] else Passes(cmds[..|cmds| - 1]) + PassIn(cmds[|cmds| - 1])
  }

  /** The draw calls of a log, in order. */
  function Draws(cmds: seq<Command>): seq<DrawCall> {
    if cmds == [] then [] else Draws(cmds[..|cmds| - 1]) + DrawIn(cmds[|cmds| - 1])
  }

  /** The bind groups a log sets at one slot, in order. */
  function Binds(cmds: seq<Command>, slot: nat): seq<BindGroup> {
    if cmds == [] then [] else Binds(cmds[..|cmds| - 1], slot) + BindIn(cmds[|cmds| - 1], slot)
  }

  lemma PassesSnoc(a: seq<Command>, c: Command)
    ensures Passes(a + [c]) == Passes(a) + PassIn(c)
  {
    assert (a + [c])[..|a|] == a;
  }

  lemma DrawsSnoc(a: seq<Command>, c: Command)
    ensures Draws(a + [c]) == Draws(a) + DrawIn(c)
  {
    assert (a + [c])[..|a|] == a;
  }

  lemma BindsSnoc(a: seq<Command>, c: Command, slot: nat)
    ensures Binds(a + [c], slot) == Binds(a, slot) + BindIn(c, slot)
  {
    assert (a + [c])[..|a|] == a;
  }

  lemma PassesOne(c: Command)
    ensures Passes([c]) == PassIn(c)
  {
    assert [c][..0] == [];
  }

  lemma DrawsOne(c: Command)
    ensures Draws([c]) == DrawIn(c)
  {
    assert [c][..0] == [];
  }

  lemma BindsOne(c: Command, slot: nat)
    ensures Binds([c], slot) == BindIn(c, slot)
  {
    assert [c][..0] == [];
  }

  lemma {:induction false} PassesAppend(a: seq<Command>, b: seq<Command>)
    ensures Passes(a + b) == Passes(a) + Passes(b)
  {
    if b == [] {
      assert a + b == a;
    } else {
      assert (a + b)[..|a + b| - 1] == a + b[..|b| - 1];
      assert (a + b)[|a + b| - 1] == b[|b| - 1];
      PassesAppend(a, b[..|b| - 1]);
    }
  }

  lemma {:induction false} DrawsAppend(a: seq<Command>, b: seq<Command>)
    ensures Draws(a + b) == Draws(a) + Draws(b)
  {
    if b == [] {
      assert a + b == a;
    } else {
      assert (a + b)[..|a + b| - 1] == a + b[..|b| - 1];
      assert (a + b)[|a + b| - 1] == b[|b| - 1];
      DrawsAppend(a, b[..|b| - 1]);
    }
  }

  lemma {:induction false} BindsAppend(a: seq<Command>, b: seq<Command>, slot: nat)
    ensures Binds(a + b, slot) == Binds(a, slot) + Binds(b, slot)
  {
    if b == [] {
      assert a + b == a;
    } else {
      assert (a + b)[..|a + b| - 1] == a + b[..|b| - 1];
      assert (a + b)[|a + b| - 1] == b[|b| - 1];
      BindsAppend(a, b[..|b| - 1], slot);
    }
  }

  /** A pass: its opening commands, its body, and the pass being dropped. */
  lemma PassLog(head: seq<Command>, body: seq<Command>, slot: nat)
    ensures Passes(head + body + [EndPass]) == Passes(head) + Passes(body)
    ensures Draws(head + body + [EndPass]) == Draws(head) + Draws(body)
    ensures Binds(head + body + [EndPass], slot) == Binds(head, slot) + Binds(body, slot)
  {
    var hb := head + body;
    assert Passes(hb + [EndPass]) == Passes(head) + Passes(body) by {
      PassesSnoc(hb, EndPass); PassesAppend(head, body);
    }
    assert Draws(hb + [EndPass]) == Draws(head) + Draws(body) by {
      DrawsSnoc(hb, EndPass); DrawsAppend(head, body);
    }
    assert Binds(hb + [EndPass], slot) == Binds(head, slot) + Binds(body, slot) by {
      BindsSnoc(hb, EndPass, slot); BindsAppend(head, body, slot);
    }
  }

  // ----- Reference sequences built from the scene -----

  /** The views of all shadow casters, caster by caster. */
  function ShadowViews(cs: seq<ShadowCaster>): seq<Handle> {
    if cs == [] then [] else ShadowViews(cs[..|cs| - 1]) + cs[|cs| - 1].views
  }

  /** For each view, the bind group at its position in its caster. */
  function ShadowGroups(cs: seq<ShadowCaster>): seq<BindGroup>
    requires CastersCovered(cs)
  {
    if cs == [] then []
    else
      var c := cs[|cs| - 1];
      assert c in cs;
      ShadowGroups(cs[..|cs| - 1]) + c.bindGroups[..|c.views|]
  }

  /** One depth-only pass per view, cleared to the far plane. */
  function DepthPasses(vs: seq<Handle>): seq<PassDesc> {
    if vs == [] then [] else DepthPasses(vs[..|vs| - 1]) + [DepthOnlyPass(vs[|vs| - 1], MAX_DEPTH)]
  }

  function EntityMeshes(e: Entity): seq<Mesh> {
    if Qualifies(e) then e.mesh.value.submeshes else []
  }

  /** The submeshes of the entities the draw loops visit, in storage order. */
  function QualifyingMeshes(es: seq<Entity>): seq<Mesh> {
    if es == [] then [] else QualifyingMeshes(es[..|es| - 1]) + EntityMeshes(es[|es| - 1])
  }

  /** The transform bind groups of the entities the draw loops visit. */
  function QualifyingTransforms(es: seq<Entity>): seq<BindGroup> {
    if es == [] then []
    else
      var e := es[|es| - 1];
      QualifyingTransforms(es[..|es| - 1]) + (if Qualifies(e) then [e.transform.value.bindGroup] else [])
  }

  /** One indexed draw per mesh, over its whole index buffer. */
  function IndexedCalls(ms: seq<Mesh>): seq<DrawCall> {
    if ms == [] then [] else IndexedCalls(ms[..|ms| - 1]) + [IndexedCall(ms[|ms| - 1].elementCount)]
  }

  /** The draws of one shadow pass. */
  function ShadowCalls(es: seq<Entity>): seq<DrawCall> {
    IndexedCalls(QualifyingMeshes(es))
  }

  function MeshCalls(ms: seq<Mesh>, material: Gpu<Material>): seq<DrawCall> {
    if ms == [] then [] else MeshCalls(ms[..|ms| - 1], material) + [MeshCall(ms[|ms| - 1], material)]
  }

  /** The draws of the opaque geometry: each submesh with its entity's
      material. */
  function OpaqueCalls(es: seq<Entity>): seq<DrawCall> {
    if es == [] then []
    else
      var e := es[|es| - 1];
      OpaqueCalls(es[..|es| - 1])
        + (if Qualifies(e) then MeshCalls(e.mesh.value.submeshes, e.material.value.material) else [])
  }

  function Repeat<T>(s: seq<T>, n: nat): seq<T> {
    if n == 0 then [] else Repeat(s, n - 1) + s
  }

  /** The depth-pass counterpart of a list of draws: each mesh drawn
      indexed over its element count instead of with its material. */
  function AsShadow(calls: seq<DrawCall>): seq<DrawCall> {
    if calls == [] then []
    else
      var c := calls[|calls| - 1];
      AsShadow(calls[..|calls| - 1]) + [if c.MeshCall? then IndexedCall(c.mesh.elementCount) else c]
  }

  lemma {:induction false} RepeatAppend<T>(s: seq<T>, m: nat, n: nat)
    ensures Repeat(s, m) + Repeat(s, n) == Repeat(s, m + n)
  {
    if n > 0 {
      RepeatAppend(s, m, n - 1);
      assert Repeat(s, m) + Repeat(s, n) == Repeat(s, m) + Repeat(s, n - 1) + s;
    }
  }

  /** Repeating once per view splits at the last caster. */
  lemma RepeatViews<T>(s: seq<T>, cs: seq<ShadowCaster>)
    requires cs != []
    ensures Repeat(s, TotalViews(cs)) == Repeat(s, TotalViews(cs[..|cs| - 1])) + Repeat(s, |cs[|cs| - 1].views|)
  {
    RepeatAppend(s, TotalViews(cs[..|cs| - 1]), |cs[|cs| - 1].views|);
  }

  lemma {:induction false} IndexedCallsAppend(a: seq<Mesh>, b: seq<Mesh>)
    ensures IndexedCalls(a + b) == IndexedCalls(a) + IndexedCalls(b)
  {
    if b == [] {
      assert a + b == a;
    } else {
      assert (a + b)[..|a + b| - 1] == a + b[..|b| - 1];
      IndexedCallsAppend(a, b[..|b| - 1]);
    }
  }

  lemma {:induction false} DepthPassesAppend(a: seq<Handle>, b: seq<Handle>)
    ensures DepthPasses(a + b) == DepthPasses(a) + DepthPasses(b)
  {
    if b == [] {
      assert a + b == a;
    } else {
      assert (a + b)[..|a + b| - 1] == a + b[..|b| - 1];
      DepthPassesAppend(a, b[..|b| - 1]);
    }
  }

  lemma {:induction false} AsShadowAppend(a: seq<DrawCall>, b: seq<DrawCall>)
    ensures AsShadow(a + b) == AsShadow(a) + AsShadow(b)
  {
    if b == [] {
      assert a + b == a;
    } else {
      assert (a + b)[..|a + b| - 1] == a + b[..|b| - 1];
      AsShadowAppend(a, b[..|b| - 1]);
    }
  }

  lemma {:induction false} AsShadowMeshCalls(ms: seq<Mesh>, material: Gpu<Material>)
    ensures AsShadow(MeshCalls(ms, material)) == IndexedCalls(ms)
  {
    if ms != [] {
      var init, m := ms[..|ms| - 1], ms[|ms| - 1];
      AsShadowMeshCalls(init, material);
      AsShadowAppend(MeshCalls(init, material), [MeshCall(m, material)]);
      assert [MeshCall(m, material)][..0] == [];
    }
  }

  // ----- Properties of the reference sequences -----

  /** Pass k of a run of depth passes is depth-only on view k and clears
      to the far plane. */
  lemma {:induction false} DepthPassesAt(vs: seq<Handle>)
    ensures |DepthPasses(vs)| == |vs|
    ensures forall k | 0 <= k < |vs| :: DepthPasses(vs)[k] == DepthOnlyPass(vs[k], MAX_DEPTH)
  {
    if vs != [] {
      DepthPassesAt(vs[..|vs| - 1]);
    }
  }

  /** One view and one bind group per shadow pass. */
  lemma {:induction false} ShadowViewsSize(cs: seq<ShadowCaster>)
    requires CastersCovered(cs)
    ensures |ShadowViews(cs)| == TotalViews(cs) == |ShadowGroups(cs)|
  {
    if cs != [] {
      assert cs[|cs| - 1] in cs;
      assert CastersCovered(cs[..|cs| - 1]) by {
        forall x | x in cs[..|cs| - 1] ensures x in cs { }
      }
      ShadowViewsSize(cs[..|cs| - 1]);
    }
  }

  lemma {:induction false} MeshCallsSize(ms: seq<Mesh>, material: Gpu<Material>)
    ensures |MeshCalls(ms, material)| == |ms|
  {
    if ms != [] {
      MeshCallsSize(ms[..|ms| - 1], material);
    }
  }

  /** The shadow passes draw exactly the meshes the opaque pass draws, in
      the same order, each indexed over its element count; there is one
      such draw per qualifying submesh. */
  lemma {:induction false} ShadowMatchesOpaque(es: seq<Entity>)
    ensures ShadowCalls(es) == AsShadow(OpaqueCalls(es))
    ensures |OpaqueCalls(es)| == QualifyingSubmeshes(es)
  {
    if es != [] {
      var init, e := es[..|es| - 1], es[|es| - 1];
      ShadowMatchesOpaque(init);
      IndexedCallsAppend(QualifyingMeshes(init), EntityMeshes(e));
      if Qualifies(e) {
        var calls := MeshCalls(e.mesh.value.submeshes, e.material.value.material);
        AsShadowAppend(OpaqueCalls(init), calls);
        AsShadowMeshCalls(e.mesh.value.submeshes, e.material.value.material);
        MeshCallsSize(e.mesh.value.submeshes, e.material.value.material);
      } else {
        assert OpaqueCalls(es) == OpaqueCalls(init) + [] == OpaqueCalls(init);
        assert QualifyingMeshes(es) == QualifyingMeshes(init) + [] == QualifyingMeshes(init);
      }
    }
  }

  // ----- Shadow passes -----

  lemma ShadowDrawLog(m: Mesh)
    ensures Passes(ShadowDraw(m)) == [] && Binds(ShadowDraw(m), 0) == [] && Binds(ShadowDraw(m), 1) == []
    ensures Draws(ShadowDraw(m)) == [IndexedCall(m.elementCount)]
  {
    var a, b, d := SetVertexBuffer(0, m.vertexBuffer.handle), SetIndexBuffer(m.indexBuffer.handle), DrawIndexed(m.elementCount);
    assert Passes(ShadowDraw(m)) == [] by { PassesOne(a); PassesSnoc([a], b); PassesSnoc([a] + [b], d); }
    assert Draws(ShadowDraw(m)) == [IndexedCall(m.elementCount)] by { DrawsOne(a); DrawsSnoc([a], b); DrawsSnoc([a] + [b], d); }
    assert Binds(ShadowDraw(m), 0) == [] by { BindsOne(a, 0); BindsSnoc([a], b, 0); BindsSnoc([a] + [b], d, 0); }
    assert Binds(ShadowDraw(m), 1) == [] by { BindsOne(a, 1); BindsSnoc([a], b, 1); BindsSnoc([a] + [b], d, 1); }
  }

  lemma {:induction false} ShadowDrawsLog(ms: seq<Mesh>)
    ensures Passes(ShadowDraws(ms)) == [] && Binds(ShadowDraws(ms), 0) == [] && Binds(ShadowDraws(ms), 1) == []
    ensures Draws(ShadowDraws(ms)) == IndexedCalls(ms)
  {
    if ms != [] {
      var init, m := ms[..|ms| - 1], ms[|ms| - 1];
      ShadowDrawsLog(init);
      ShadowDrawLog(m);
      PassesAppend(ShadowDraws(init), ShadowDraw(m));
      DrawsAppend(ShadowDraws(init), ShadowDraw(m));
      BindsAppend(ShadowDraws(init), ShadowDraw(m), 0);
      BindsAppend(ShadowDraws(init), ShadowDraw(m), 1);
    }
  }

  lemma ShadowEntityLog(e: Entity)
    ensures Passes(ShadowEntity(e)) == [] && Binds(ShadowEntity(e), 0) == []
    ensures Binds(ShadowEntity(e), 1) == (if Qualifies(e) then [e.transform.value.bindGroup] else [])
    ensures Draws(ShadowEntity(e)) == IndexedCalls(EntityMeshes(e))
  {
    if Qualifies(e) {
      var b, ds := SetBindGroup(1, e.transform.value.bindGroup), ShadowDraws(e.mesh.value.submeshes);
      ShadowDrawsLog(e.mesh.value.submeshes);
      PassesOne(b);
      PassesAppend([b], ds);
      DrawsOne(b);
      DrawsAppend([b], ds);
      BindsOne(b, 0);
      BindsAppend([b], ds, 0);
      BindsOne(b, 1);
      BindsAppend([b], ds, 1);
    }
  }

  /** The entity loop of a depth pass binds each qualifying entity's
      transform at slot 1, then draws each of its submeshes indexed. */
  lemma {:induction false} ShadowEntitiesLog(es: seq<Entity>)
    ensures Passes(ShadowEntities(es)) == [] && Binds(ShadowEntities(es), 0) == []
    ensures Binds(ShadowEntities(es), 1) == QualifyingTransforms(es)
    ensures Draws(ShadowEntities(es)) == ShadowCalls(es)
  {
    if es != [] {
      var init, e := es[..|es| - 1], es[|es| - 1];
      var a, b := ShadowEntities(init), ShadowEntity(e);
      ShadowEntitiesLog(init);
      ShadowEntityLog(e);
      PassesAppend(a, b);
      DrawsAppend(a, b);
      BindsAppend(a, b, 0);
      BindsAppend(a, b, 1);
      IndexedCallsAppend(QualifyingMeshes(init), EntityMeshes(e));
    }
  }

  lemma ShadowPassHeadLog(light: Pipeline, view: Handle, group: BindGroup)
    ensures Passes(ShadowPassHead(light, view, group)) == [DepthOnlyPass(view, MAX_DEPTH)]
    ensures Draws(ShadowPassHead(light, view, group)) == []
    ensures Binds(ShadowPassHead(light, view, group), 0) == [group]
    ensures Binds(ShadowPassHead(light, view, group), 1) == []
  {
    var b, p, g := BeginPass(DepthOnlyPass(view, MAX_DEPTH)), SetPipeline(light), SetBindGroup(0, group);
    assert Passes([b] + [p] + [g]) == [DepthOnlyPass(view, MAX_DEPTH)] by {
      PassesOne(b); PassesSnoc([b], p); PassesSnoc([b] + [p], g);
    }
    assert Draws([b] + [p] + [g]) == [] by {
      DrawsOne(b); DrawsSnoc([b], p); DrawsSnoc([b] + [p], g);
    }
    assert Binds([b] + [p] + [g], 0) == [group] by {
      BindsOne(b, 0); BindsSnoc([b], p, 0); BindsSnoc([b] + [p], g, 0);
    }
    assert Binds([b] + [p] + [g], 1) == [] by {
      BindsOne(b, 1); BindsSnoc([b], p, 1); BindsSnoc([b] + [p], g, 1);
    }
  }

  /** One depth pass: depth-only on its view, cleared to the far plane,
      with the caster's bind group at slot 0, every qualifying entity's
      transform at slot 1 and every qualifying submesh drawn. */
  lemma ShadowPassLog(light: Pipeline, view: Handle, group: BindGroup, es: seq<Entity>)
    ensures Passes(ShadowPass(light, view, group, es)) == [DepthOnlyPass(view, MAX_DEPTH)]
    ensures Binds(ShadowPass(light, view, group, es), 0) == [group]
    ensures Binds(ShadowPass(light, view, group, es), 1) == QualifyingTransforms(es)
    ensures Draws(ShadowPass(light, view, group, es)) == ShadowCalls(es)
  {
    var head, body := ShadowPassHead(light, view, group), ShadowEntities(es);
    assert ShadowPass(light, view, group, es) == head + body + [EndPass];
    ShadowPassHeadLog(light, view, group);
    ShadowEntitiesLog(es);
    PassLog(head, body, 0);
    PassLog(head, body, 1);
  }

  lemma SliceSnoc<T>(s: seq<T>, n: nat)
    requires 0 < n <= |s|
    ensures s[..n] == s[..n - 1] + [s[n - 1]]
  {
  }

  lemma DepthPassesPrefix(vs: seq<Handle>, n: nat)
    requires 0 < n <= |vs|
    ensures DepthPasses(vs[..n]) == DepthPasses(vs[..n - 1]) + [DepthOnlyPass(vs[n - 1], MAX_DEPTH)]
  {
    assert vs[..n][..n - 1] == vs[..n - 1];
  }

  // One more view of a light: each selector separately, so that no proof
  // sees all four at once.

  lemma CasterPassesStep(light: Pipeline, c: ShadowCaster, n: nat, es: seq<Entity>)
    requires 0 < n <= |c.views| <= |c.bindGroups|
    requires Passes(CasterPasses(light, c, n - 1, es)) == DepthPasses(c.views[..n - 1])
    ensures Passes(CasterPasses(light, c, n, es)) == DepthPasses(c.views[..n])
  {
    ShadowPassLog(light, c.views[n - 1], c.bindGroups[n - 1], es);
    PassesAppend(CasterPasses(light, c, n - 1, es), ShadowPass(light, c.views[n - 1], c.bindGroups[n - 1], es));
    DepthPassesPrefix(c.views, n);
  }

  lemma CasterGroupsStep(light: Pipeline, c: ShadowCaster, n: nat, es: seq<Entity>)
    requires 0 < n <= |c.views| <= |c.bindGroups|
    requires Binds(CasterPasses(light, c, n - 1, es), 0) == c.bindGroups[..n - 1]
    ensures Binds(CasterPasses(light, c, n, es), 0) == c.bindGroups[..n]
  {
    ShadowPassLog(light, c.views[n - 1], c.bindGroups[n - 1], es);
    BindsAppend(CasterPasses(light, c, n - 1, es), ShadowPass(light, c.views[n - 1], c.bindGroups[n - 1], es), 0);
    SliceSnoc(c.bindGroups, n);
  }

  lemma CasterTransformsStep(light: Pipeline, c: ShadowCaster, n: nat, es: seq<Entity>)
    requires 0 < n <= |c.views| <= |c.bindGroups|
    requires Binds(CasterPasses(light, c, n - 1, es), 1) == Repeat(QualifyingTransforms(es), n - 1)
    ensures Binds(CasterPasses(light, c, n, es), 1) == Repeat(QualifyingTransforms(es), n)
  {
    ShadowPassLog(light, c.views[n - 1], c.bindGroups[n - 1], es);
    BindsAppend(CasterPasses(light, c, n - 1, es), ShadowPass(light, c.views[n - 1], c.bindGroups[n - 1], es), 1);
  }

  lemma CasterDrawsStep(light: Pipeline, c: ShadowCaster, n: nat, es: seq<Entity>)
    requires 0 < n <= |c.views| <= |c.bindGroups|
    requires Draws(CasterPasses(light, c, n - 1, es)) == Repeat(ShadowCalls(es), n - 1)
    ensures Draws(CasterPasses(light, c, n, es)) == Repeat(ShadowCalls(es), n)
  {
    ShadowPassLog(light, c.views[n - 1], c.bindGroups[n - 1], es);
    DrawsAppend(CasterPasses(light, c, n - 1, es), ShadowPass(light, c.views[n - 1], c.bindGroups[n - 1], es));
  }

  /** The passes of one light: view i in a depth pass with bind group i. */
  lemma {:induction false} CasterPassesLog(light: Pipeline, c: ShadowCaster, n: nat, es: seq<Entity>)
    requires n <= |c.views| <= |c.bindGroups|
    ensures Passes(CasterPasses(light, c, n, es)) == DepthPasses(c.views[..n])
    ensures Binds(CasterPasses(light, c, n, es), 0) == c.bindGroups[..n]
    ensures Binds(CasterPasses(light, c, n, es), 1) == Repeat(QualifyingTransforms(es), n)
    ensures Draws(CasterPasses(light, c, n, es)) == Repeat(ShadowCalls(es), n)
  {
    if n > 0 {
      CasterPassesLog(light, c, n - 1, es);
      CasterPassesStep(light, c, n, es);
      CasterGroupsStep(light, c, n, es);
      CasterTransformsStep(light, c, n, es);
      CasterDrawsStep(light, c, n, es);
    }
  }

  /** The shadow passes: one depth pass per (caster, view) pair in
      caster-then-view order, view k paired with bind group k, and every
      pass binding the same transforms and drawing the same submeshes. */
  lemma {:induction false} ShadowPassesLog(light: Pipeline, cs: seq<ShadowCaster>, es: seq<Entity>)
    requires CastersCovered(cs)
    ensures Passes(ShadowPasses(light, cs, es)) == DepthPasses(ShadowViews(cs))
    ensures Binds(ShadowPasses(light, cs, es), 0) == ShadowGroups(cs)
    ensures Binds(ShadowPasses(light, cs, es), 1) == Repeat(QualifyingTransforms(es), TotalViews(cs))
    ensures Draws(ShadowPasses(light, cs, es)) == Repeat(ShadowCalls(es), TotalViews(cs))
  {
    if cs != [] {
      var init, c := cs[..|cs| - 1], cs[|cs| - 1];
      assert c in cs;
      assert CastersCovered(init) by {
        forall x | x in init ensures x in cs { }
      }
      var a, b := ShadowPasses(light, init, es), CasterPasses(light, c, |c.views|, es);
      ShadowPassesLog(light, init, es);
      CasterPassesLog(light, c, |c.views|, es);
      assert c.views[..|c.views|] == c.views;
      assert Passes(a + b) == DepthPasses(ShadowViews(cs)) by {
        PassesAppend(a, b);
        DepthPassesAppend(ShadowViews(init), c.views);
      }
      BindsAppend(a, b, 0);
      assert Binds(a + b, 1) == Repeat(QualifyingTransforms(es), TotalViews(cs)) by {
        BindsAppend(a, b, 1);
        RepeatViews(QualifyingTransforms(es), cs);
      }
      assert Draws(a + b) == Repeat(ShadowCalls(es), TotalViews(cs)) by {
        DrawsAppend(a, b);
        RepeatViews(ShadowCalls(es), cs);
      }
    }
  }

  // ----- Main pass -----

  lemma {:induction false} OpaqueDrawsLog(ms: seq<Mesh>, material: Gpu<Material>)
    ensures Passes(OpaqueDraws(ms, material)) == []
    ensures Binds(OpaqueDraws(ms, material), 0) == [] && Binds(OpaqueDraws(ms, material), 1) == []
    ensures Binds(OpaqueDraws(ms, material), 3) == []
    ensures Draws(OpaqueDraws(ms, material)) == MeshCalls(ms, material)
  {
    if ms != [] {
      var init, d := ms[..|ms| - 1], DrawMesh(ms[|ms| - 1], material);
      var a := OpaqueDraws(init, material);
      assert OpaqueDraws(ms, material) == a + [d];
      OpaqueDrawsLog(init, material);
      assert Passes(a + [d]) == [] by { PassesSnoc(a, d); }
      assert Draws(a + [d]) == MeshCalls(ms, material) by { DrawsSnoc(a, d); }
      assert Binds(a + [d], 0) == [] by { BindsSnoc(a, d, 0); }
      assert Binds(a + [d], 1) == [] by { BindsSnoc(a, d, 1); }
      assert Binds(a + [d], 3) == [] by { BindsSnoc(a, d, 3); }
    }
  }

  lemma OpaqueEntityLog(e: Entity)
    ensures Passes(OpaqueEntity(e)) == [] && Binds(OpaqueEntity(e), 1) == [] && Binds(OpaqueEntity(e), 3) == []
    ensures Binds(OpaqueEntity(e), 0) == (if Qualifies(e) then [e.transform.value.bindGroup] else [])
    ensures Draws(OpaqueEntity(e))
      == (if Qualifies(e) then MeshCalls(e.mesh.value.submeshes, e.material.value.material) else [])
  {
    if Qualifies(e) {
      var b := SetBindGroup(0, e.transform.value.bindGroup);
      var ds := OpaqueDraws(e.mesh.value.submeshes, e.material.value.material);
      OpaqueDrawsLog(e.mesh.value.submeshes, e.material.value.material);
      PassesOne(b);
      PassesAppend([b], ds);
      DrawsOne(b);
      DrawsAppend([b], ds);
      BindsOne(b, 0);
      BindsAppend([b], ds, 0);
      BindsOne(b, 1);
      BindsAppend([b], ds, 1);
      BindsOne(b, 3);
      BindsAppend([b], ds, 3);
    }
  }

  /** The opaque loop binds each qualifying entity's transform at slot 0,
      the same entities in the same order as the depth passes bind at
      slot 1, then draws its submeshes with its material. */
  lemma {:induction false} OpaqueEntitiesLog(es: seq<Entity>)
    ensures Passes(OpaqueEntities(es)) == [] && Binds(OpaqueEntities(es), 1) == [] && Binds(OpaqueEntities(es), 3) == []
    ensures Binds(OpaqueEntities(es), 0) == QualifyingTransforms(es)
    ensures Draws(OpaqueEntities(es)) == OpaqueCalls(es)
  {
    if es != [] {
      var init, e := es[..|es| - 1], es[|es| - 1];
      var a, b := OpaqueEntities(init), OpaqueEntity(e);
      OpaqueEntitiesLog(init);
      OpaqueEntityLog(e);
      PassesAppend(a, b);
      DrawsAppend(a, b);
      BindsAppend(a, b, 0);
      BindsAppend(a, b, 1);
      BindsAppend(a, b, 3);
    }
  }

  lemma MainPassHeadLog(pl: Pipelines, clearColor: Color, view: Handle, depthView: Handle,
                        sky: Skybox, camera: Camera, lights: BindGroup)
    ensures Passes(MainPassHead(pl, clearColor, view, depthView, sky, camera, lights))
      == [ColorDepthPass(view, clearColor, depthView, MAX_DEPTH)]
    ensures Binds(MainPassHead(pl, clearColor, view, depthView, sky, camera, lights), 0) == [sky.bindGroup]
    ensures Binds(MainPassHead(pl, clearColor, view, depthView, sky, camera, lights), 1) == [camera.bindGroup]
    ensures Binds(MainPassHead(pl, clearColor, view, depthView, sky, camera, lights), 3) == [lights]
    ensures Draws(MainPassHead(pl, clearColor, view, depthView, sky, camera, lights)) == [PlainCall(SKYBOX_VERTICES)]
  {
    var c0 := BeginPass(ColorDepthPass(view, clearColor, depthView, MAX_DEPTH));
    var c1, c2, c3 := SetPipeline(pl.skybox), SetBindGroup(0, sky.bindGroup), SetVertexBuffer(0, sky.vertexBuffer);
    var c4, c5, c6, c7 := Draw(SKYBOX_VERTICES), SetPipeline(pl.render), SetBindGroup(1, camera.bindGroup), SetBindGroup(3, lights);
    var p1 := [c0];
    var p2 := p1 + [c1];
    var p3 := p2 + [c2];
    var p4 := p3 + [c3];
    var p5 := p4 + [c4];
    var p6 := p5 + [c5];
    var p7 := p6 + [c6];
    assert p7 + [c7] == MainPassHead(pl, clearColor, view, depthView, sky, camera, lights);
    assert Passes(p7 + [c7]) == [ColorDepthPass(view, clearColor, depthView, MAX_DEPTH)] by {
      PassesOne(c0); PassesSnoc(p1, c1); PassesSnoc(p2, c2); PassesSnoc(p3, c3);
      PassesSnoc(p4, c4); PassesSnoc(p5, c5); PassesSnoc(p6, c6); PassesSnoc(p7, c7);
    }
    assert Draws(p7 + [c7]) == [PlainCall(SKYBOX_VERTICES)] by {
      DrawsOne(c0); DrawsSnoc(p1, c1); DrawsSnoc(p2, c2); DrawsSnoc(p3, c3);
      DrawsSnoc(p4, c4); DrawsSnoc(p5, c5); DrawsSnoc(p6, c6); DrawsSnoc(p7, c7);
    }
    assert Binds(p7 + [c7], 0) == [sky.bindGroup] by {
      BindsOne(c0, 0); BindsSnoc(p1, c1, 0); BindsSnoc(p2, c2, 0); BindsSnoc(p3, c3, 0);
      BindsSnoc(p4, c4, 0); BindsSnoc(p5, c5, 0); BindsSnoc(p6, c6, 0); BindsSnoc(p7, c7, 0);
    }
    assert Binds(p7 + [c7], 1) == [camera.bindGroup] by {
      BindsOne(c0, 1); BindsSnoc(p1, c1, 1); BindsSnoc(p2, c2, 1); BindsSnoc(p3, c3, 1);
      BindsSnoc(p4, c4, 1); BindsSnoc(p5, c5, 1); BindsSnoc(p6, c6, 1); BindsSnoc(p7, c7, 1);
    }
    assert Binds(p7 + [c7], 3) == [lights] by {
      BindsOne(c0, 3); BindsSnoc(p1, c1, 3); BindsSnoc(p2, c2, 3); BindsSnoc(p3, c3, 3);
      BindsSnoc(p4, c4, 3); BindsSnoc(p5, c5, 3); BindsSnoc(p6, c6, 3); BindsSnoc(p7, c7, 3);
    }
  }

  /** The main pass: one colour-and-depth pass on the surface view; the
      skybox group at slot 0 before every transform, the camera once at
      slot 1 and the lights once at slot 3; the single 36-vertex skybox
      draw before every opaque draw. */
  lemma MainPassLog(pl: Pipelines, clearColor: Color, view: Handle, depthView: Handle,
                    sky: Skybox, camera: Camera, lights: BindGroup, es: seq<Entity>)
    ensures Passes(MainPass(pl, clearColor, view, depthView, sky, camera, lights, es))
      == [ColorDepthPass(view, clearColor, depthView, MAX_DEPTH)]
    ensures Binds(MainPass(pl, clearColor, view, depthView, sky, camera, lights, es), 0)
      == [sky.bindGroup] + QualifyingTransforms(es)
    ensures Binds(MainPass(pl, clearColor, view, depthView, sky, camera, lights, es), 1) == [camera.bindGroup]
    ensures Binds(MainPass(pl, clearColor, view, depthView, sky, camera, lights, es), 3) == [lights]
    ensures Draws(MainPass(pl, clearColor, view, depthView, sky, camera, lights, es))
      == [PlainCall(SKYBOX_VERTICES)] + OpaqueCalls(es)
  {
    var head := MainPassHead(pl, clearColor, view, depthView, sky, camera, lights);
    var body := OpaqueEntities(es);
    MainPassHeadLog(pl, clearColor, view, depthView, sky, camera, lights);
    OpaqueEntitiesLog(es);
    assert MainPass(pl, clearColor, view, depthView, sky, camera, lights, es) == head + body + [EndPass];
    PassLog(head, body, 0);
    PassLog(head, body, 1);
    PassLog(head, body, 3);
  }

  // ----- The whole frame -----

  /** Every depth pass is recorded before the one main pass; the frame's
      draws are the shadow draws once per view, then the skybox draw, then
      the opaque draws; slot 1 receives every qualifying transform once per
      depth pass and then the camera. */
  lemma FrameLog(pl: Pipelines, clearColor: Color, depthView: Handle, view: Handle,
                 scene: Scene, camera: Camera)
    requires scene.skybox.Some? && CastersCovered(scene.lightManager.pointShadows)
    ensures Passes(FrameCommands(pl, clearColor, depthView, view, scene, camera))
      == DepthPasses(ShadowViews(scene.lightManager.pointShadows))
         + [ColorDepthPass(view, clearColor, depthView, MAX_DEPTH)]
    ensures Draws(FrameCommands(pl, clearColor, depthView, view, scene, camera))
      == Repeat(ShadowCalls(scene.entities), TotalViews(scene.lightManager.pointShadows))
         + ([PlainCall(SKYBOX_VERTICES)] + OpaqueCalls(scene.entities))
    ensures Binds(FrameCommands(pl, clearColor, depthView, view, scene, camera), 0)
      == ShadowGroups(scene.lightManager.pointShadows)
         + ([scene.skybox.value.bindGroup] + QualifyingTransforms(scene.entities))
    ensures Binds(FrameCommands(pl, clearColor, depthView, view, scene, camera), 1)
      == Repeat(QualifyingTransforms(scene.entities), TotalViews(scene.lightManager.pointShadows))
         + [camera.bindGroup]
  {
    var cs, es := scene.lightManager.pointShadows, scene.entities;
    var a := ShadowPasses(pl.light, cs, es);
    var b := MainPass(pl, clearColor, view, depthView, scene.skybox.value, camera, scene.lightManager.bindGroup, es);
    ShadowPassesLog(pl.light, cs, es);
    MainPassLog(pl, clearColor, view, depthView, scene.skybox.value, camera, scene.lightManager.bindGroup, es);
    assert FrameCommands(pl, clearColor, depthView, view, scene, camera) == a + b;
    assert Passes(a + b) == Passes(a) + Passes(b) by { PassesAppend(a, b); }
    assert Draws(a + b) == Draws(a) + Draws(b) by { DrawsAppend(a, b); }
    assert Binds(a + b, 0) == Binds(a, 0) + Binds(b, 0) by { BindsAppend(a, b, 0); }
    assert Binds(a + b, 1) == Binds(a, 1) + Binds(b, 1) by { BindsAppend(a, b, 1); }
  }
}
