/** Bind group layouts: the constant descriptors `Renderer::new` builds, the
    bind groups made against them, and the five process-wide layout slots. */
module Layouts {
  import opened Base

  datatype ShaderStage = Vertex | Fragment | VertexFragment

  datatype BindingType =
    | UniformBuffer
    | ReadOnlyStorageBuffer
    | FilterableTexture2D
    | FilterableTextureCube
    | DepthTextureCubeArray
    | FilteringSampler

  datatype LayoutEntry = LayoutEntry(binding: nat, visibility: ShaderStage, ty: BindingType, count: Option<nat>)

  /** A created bind group layout: its identity and the entries it was made from. */
  datatype Layout = Layout(handle: Handle, entries: seq<LayoutEntry>)

  /** A bind group, made against one layout. */
  datatype BindGroup = BindGroup(handle: Handle, layout: Layout)

  /** wgpu refuses a layout that uses one binding index twice. */
  predicate DistinctBindings(entries: seq<LayoutEntry>) {
    forall i, j :: 0 <= i < j < |entries| ==> entries[i].binding != entries[j].binding
  }

  function Entry(binding: nat, visibility: ShaderStage, ty: BindingType): LayoutEntry {
    LayoutEntry(binding, visibility, ty, None)
  }

  /** One uniform buffer for the model matrix. */
  const TRANSFORM_ENTRIES: seq<LayoutEntry> := [Entry(0, VertexFragment, UniformBuffer)]

  /** Five texture/sampler pairs at 0..9, then two uniform buffers. */
  const MATERIAL_ENTRIES: seq<LayoutEntry> := [
    Entry(0, Fragment, FilterableTexture2D), Entry(1, Fragment, FilteringSampler),
    Entry(2, Fragment, FilterableTexture2D), Entry(3, Fragment, FilteringSampler),
    Entry(4, Fragment, FilterableTexture2D), Entry(5, Fragment, FilteringSampler),
    Entry(6, Fragment, FilterableTexture2D), Entry(7, Fragment, FilteringSampler),
    Entry(8, Fragment, FilterableTexture2D), Entry(9, Fragment, FilteringSampler),
    Entry(10, Fragment, UniformBuffer), Entry(11, Fragment, UniformBuffer)]

  const CAMERA_ENTRIES: seq<LayoutEntry> := [Entry(0, VertexFragment, UniformBuffer)]

  /** Light storage and uniforms, and an array of 16 depth cube maps. */
  const LIGHT_ENTRIES: seq<LayoutEntry> := [
    Entry(0, VertexFragment, ReadOnlyStorageBuffer),
    Entry(1, Fragment, UniformBuffer),
    Entry(2, VertexFragment, ReadOnlyStorageBuffer),
    Entry(3, Fragment, UniformBuffer),
    LayoutEntry(4, Fragment, DepthTextureCubeArray, Some(16)),
    Entry(5, Fragment, FilteringSampler)]

  const SHADOW_ENTRIES: seq<LayoutEntry> := [Entry(0, Vertex, UniformBuffer)]

  const SKYBOX_ENTRIES: seq<LayoutEntry> := [
    Entry(0, Fragment, FilterableTextureCube),
    Entry(1, Fragment, FilteringSampler),
    Entry(2, Vertex, UniformBuffer)]

  /** `device.create_bind_group_layout`. */
  method CreateBindGroupLayout(device: Device, entries: seq<LayoutEntry>) returns (l: Layout)
    requires DistinctBindings(entries)
    modifies device
    ensures l == Layout(Handle(old(device.next)), entries)
    ensures device.next == old(device.next) + 1
  {
    var h := device.Allocate();
    l := Layout(h, entries);
  }

  /** The five global `Lazy<Mutex<Option<Arc<BindGroupLayout>>>>` slots.
      The camera layout is not among them: it is a field of the renderer. */
  class LayoutRegistry {
    var material: Option<Layout>
    var transform: Option<Layout>
    var light: Option<Layout>
    var shadow: Option<Layout>
    var skybox: Option<Layout>

    /** Every slot starts out empty. */
    constructor ()
      ensures material == None && transform == None && light == None
      ensures shadow == None && skybox == None
    {
      material, transform, light, shadow, skybox := None, None, None, None, None;
    }

    predicate Filled()
      reads this
    {
      material.Some? && transform.Some? && light.Some? && shadow.Some? && skybox.Some?
    }

    /** Each getter unwraps its slot: an empty slot panics, so it is a
        precondition. */
    method GetMaterialLayout() returns (l: Layout)
      requires material.Some?
      ensures Some(l) == material
    {
      l := material.value;
    }

    method GetTransformLayout() returns (l: Layout)
      requires transform.Some?
      ensures Some(l) == transform
    {
      l := transform.value;
    }

    method GetLightLayout() returns (l: Layout)
      requires light.Some?
      ensures Some(l) == light
    {
      l := light.value;
    }

    method GetShadowLayout() returns (l: Layout)
      requires shadow.Some?
      ensures Some(l) == shadow
    {
      l := shadow.value;
    }

    method GetSkyboxLayout() returns (l: Layout)
      requires skybox.Some?
      ensures Some(l) == skybox
    {
      l := skybox.value;
    }
  }
}
