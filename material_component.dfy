/** The scene component that attaches a realised material to an entity. */
module MaterialComponents {
  import opened Base
  import opened GpuBinding
  import opened Materials

  /** `material` is a shared reference: a copy of the component refers to the
      same `Gpu<Material>` object, never to a duplicate of it. */
  datatype MaterialComponent = MaterialComponent(id: nat, material: Gpu<Material>)

  /** `Registry::get_material`, left uninterpreted: the registry's answer for
      each id. */
  type MaterialLookup = nat -> Option<Gpu<Material>>

  /** `MaterialComponent::new`: unwraps the registry's answer, so an unknown
      id panics. */
  function NewMaterialComponent(id: nat, getMaterial: MaterialLookup): (c: MaterialComponent)
    requires getMaterial(id).Some?
    ensures c.id == id && getMaterial(id) == Some(c.material)
  {
    MaterialComponent(id, getMaterial(id).value)
  }

  const DEFAULT_MATERIAL_ID: nat := 1

  /** `ComponentDefault::default`: always material 1; the device is unused. */
  function DefaultMaterialComponent(device: Handle, getMaterial: MaterialLookup): (c: MaterialComponent)
    requires getMaterial(DEFAULT_MATERIAL_ID).Some?
    ensures c.id == 1 && getMaterial(1) == Some(c.material)
  {
    NewMaterialComponent(DEFAULT_MATERIAL_ID, getMaterial)
  }

  /** `TypeName::type_name`. */
  function TypeName(): (r: string)
    ensures r == "material"
  {
    "material"
  }
}
