/** Bind-slot consistency: every bind group a frame sets at slot k was made
    against layout k of the pipeline its pass has set, provided the scene's
    bind groups were made against the layouts the renderer built. */
module BindSlots {
  import opened Base
  import opened Layouts
  import opened Frame
  import opened FrameCounts
  import opened FrameOrder

  /** Every group of `gs` was made against `l`. */
  predicate MadeWith(gs: seq<BindGroup>, l: Layout) {
    forall k | 0 <= k < |gs| :: gs[k].layout == l
  }

  /** The transform group of every entity the draw loops visit was made
      against `l`. */
  predicate TransformsMadeWith(es: seq<Entity>, l: Layout) {
    forall k | 0 <= k < |es| :: Qualifies(es[k]) ==> es[k].transform.value.bindGroup.layout == l
  }

  /** Every per-view bind group of every light was made against `l`. */
  predicate CastersMadeWith(cs: seq<ShadowCaster>, l: Layout) {
    forall k | 0 <= k < |cs| :: MadeWith(cs[k].bindGroups, l)
  }

  lemma MadeWithAppend(a: seq<BindGroup>, b: seq<BindGroup>, l: Layout)
    requires MadeWith(a, l) && MadeWith(b, l)
    ensures MadeWith(a + b, l)
  {
    forall k | 0 <= k < |a + b| ensures (a + b)[k].layout == l {
      if k < |a| {
        assert (a + b)[k] == a[k];
      } else {
        assert (a + b)[k] == b[k - |a|];
      }
    }
  }

  lemma {:induction false} QualifyingTransformsMadeWith(es: seq<Entity>, l: Layout)
    requires TransformsMadeWith(es, l)
    ensures MadeWith(QualifyingTransforms(es), l)
  {
    if es != [] {
      var init, e := es[..|es| - 1], es[|es| - 1];
      assert TransformsMadeWith(init, l) by {
        forall k | 0 <= k < |init| && Qualifies(init[k])
          ensures init[k].transform.value.bindGroup.layout == l
        {
          assert init[k] == es[k];
        }
      }
      QualifyingTransformsMadeWith(init, l);
      MadeWithAppend(QualifyingTransforms(init), if Qualifies(e) then [e.transform.value.bindGroup] else [], l);
    }
  }

  lemma {:induction false} RepeatMadeWith(gs: seq<BindGroup>, n: nat, l: Layout)
    requires MadeWith(gs, l)
    ensures MadeWith(Repeat(gs, n), l)
  {
    if n > 0 {
      RepeatMadeWith(gs, n - 1, l);
      MadeWithAppend(Repeat(gs, n - 1), gs, l);
    }
  }

  lemma {:induction false} ShadowGroupsMadeWith(cs: seq<ShadowCaster>, l: Layout)
    requires CastersCovered(cs) && CastersMadeWith(cs, l)
    ensures MadeWith(ShadowGroups(cs), l)
  {
    if cs != [] {
      var init, c := cs[..|cs| - 1], cs[|cs| - 1];
      assert c in cs;
      assert CastersCovered(init) by {
        forall x | x in init ensures x in cs { }
      }
      assert CastersMadeWith(init, l) by {
        forall k | 0 <= k < |init| ensures MadeWith(init[k].bindGroups, l) {
          assert init[k] == cs[k];
        }
      }
      ShadowGroupsMadeWith(init, l);
      assert MadeWith(c.bindGroups[..|c.views|], l) by {
        assert MadeWith(cs[|cs| - 1].bindGroups, l);
      }
      MadeWithAppend(ShadowGroups(init), c.bindGroups[..|c.views|], l);
    }
  }

  /** The pipelines as `Renderer::new` lays them out: the light pipeline
      over [shadow, transform], the skybox pipeline over [skybox], the
      render pipeline over [transform, camera, material, light], the
      transform layout shared by the two. */
  predicate LaidOut(pl: Pipelines) {
    |pl.light.layouts| == 2 && |pl.skybox.layouts| == 1 && |pl.render.layouts| == 4
    && pl.render.layouts[0] == pl.light.layouts[1]
  }

  /** The scene's and the camera's bind groups were made against the
      layouts of the slots they are bound at. */
  predicate SceneMadeWith(pl: Pipelines, scene: Scene, camera: Camera)
    requires LaidOut(pl) && scene.skybox.Some?
  {
    CastersMadeWith(scene.lightManager.pointShadows, pl.light.layouts[0])
    && TransformsMadeWith(scene.entities, pl.light.layouts[1])
    && scene.skybox.value.bindGroup.layout == pl.skybox.layouts[0]
    && camera.bindGroup.layout == pl.render.layouts[1]
    && scene.lightManager.bindGroup.layout == pl.render.layouts[3]
  }

  /** In every depth pass, what is bound at slots 0 and 1 matches the light
      pipeline's layouts 0 and 1. */
  lemma ShadowSlotsMatch(pl: Pipelines, scene: Scene, camera: Camera)
    requires LaidOut(pl) && scene.skybox.Some? && CastersCovered(scene.lightManager.pointShadows)
    requires SceneMadeWith(pl, scene, camera)
    ensures MadeWith(Binds(ShadowPasses(pl.light, scene.lightManager.pointShadows, scene.entities), 0), pl.light.layouts[0])
    ensures MadeWith(Binds(ShadowPasses(pl.light, scene.lightManager.pointShadows, scene.entities), 1), pl.light.layouts[1])
  {
    var cs, es := scene.lightManager.pointShadows, scene.entities;
    ShadowPassesLog(pl.light, cs, es);
    ShadowGroupsMadeWith(cs, pl.light.layouts[0]);
    QualifyingTransformsMadeWith(es, pl.light.layouts[1]);
    RepeatMadeWith(QualifyingTransforms(es), TotalViews(cs), pl.light.layouts[1]);
  }

  /** In the main pass, the group bound first at slot 0 (under the skybox
      pipeline) matches the skybox layout, every later one (under the
      render pipeline) the render pipeline's layout 0, and the camera and
      the lights match its layouts 1 and 3. */
  lemma MainSlotsMatch(pl: Pipelines, clearColor: Color, depthView: Handle, view: Handle,
                       scene: Scene, camera: Camera)
    requires LaidOut(pl) && scene.skybox.Some?
    requires SceneMadeWith(pl, scene, camera)
    ensures var main := MainPass(pl, clearColor, view, depthView, scene.skybox.value, camera,
                                 scene.lightManager.bindGroup, scene.entities);
      && Binds(main, 0) != []
      && Binds(main, 0)[0].layout == pl.skybox.layouts[0]
      && MadeWith(Binds(main, 0)[1..], pl.render.layouts[0])
      && MadeWith(Binds(main, 1), pl.render.layouts[1])
      && MadeWith(Binds(main, 3), pl.render.layouts[3])
  {
    var es := scene.entities;
    MainPassLog(pl, clearColor, view, depthView, scene.skybox.value, camera, scene.lightManager.bindGroup, es);
    QualifyingTransformsMadeWith(es, pl.render.layouts[0]);
    assert ([scene.skybox.value.bindGroup] + QualifyingTransforms(es))[1..] == QualifyingTransforms(es);
  }
}
