/** Material records: construction, the persisted document, the guarded save
    and the diffuse upload. */
module Materials {
  import opened Base
  import opened Paths
  import opened GpuBinding

  datatype Rgb = Rgb(r: f32, g: f32, b: f32)

  /** A texture reference: the asset id, which is persisted, and the resolved
      texture, which `serde` skips. */
  datatype TextureId = TextureId(id: Option<nat>, texture: Option<Handle>)

  datatype Material = Material(diffuse: Rgb, diffuseTexture: TextureId, normalTexture: TextureId)

  /** Neither texture slot holds a resolved texture. */
  predicate Unresolved(m: Material) {
    m.diffuseTexture.texture.None? && m.normalTexture.texture.None?
  }

  /** `TextureId::new`. */
  function NewTextureId(id: Option<nat>): (t: TextureId)
    ensures t.id == id && t.texture.None?
  {
    TextureId(id, None)
  }

  /** `Material::new`. */
  function NewMaterial(diffuse: Rgb, diffuseTexture: Option<nat>, normalTexture: Option<nat>): (m: Material)
    ensures m.diffuse == diffuse
    ensures m.diffuseTexture.id == diffuseTexture && m.normalTexture.id == normalTexture
    ensures Unresolved(m)
  {
    Material(diffuse, NewTextureId(diffuseTexture), NewTextureId(normalTexture))
  }

  /** The material `Material::create` returns. */
  function DefaultMaterial(): (m: Material)
    ensures m.diffuse == Rgb(F32_ONE, F32_ONE, F32_ONE)
    ensures m.diffuseTexture.id.None? && m.normalTexture.id.None? && Unresolved(m)
  {
    Material(Rgb(F32_ONE, F32_ONE, F32_ONE), NewTextureId(None), NewTextureId(None))
  }

  /** A float as YAML text holds it: `serde_yaml` writes every NaN as `.nan`,
      so the only NaN the text can carry is `f32::NAN`. */
  type TextFloat = x: f32 | !IsNaN(x) || x == F32_NAN

  /** What one channel becomes in the text: itself, unless it is a NaN. */
  function ToText(x: f32): (t: TextFloat)
    ensures !IsNaN(x) ==> t == x
    ensures IsNaN(x) ==> t == F32_NAN
  {
    if IsNaN(x) then F32_NAN else x
  }

  datatype TextRgb = TextRgb(r: TextFloat, g: TextFloat, b: TextFloat)

  /** The persisted document: what `serde_yaml` writes of a material. */
  datatype Document = Document(diffuse: TextRgb, diffuseTexture: Option<nat>, normalTexture: Option<nat>)

  /** Writing a material keeps its colour, each channel as the text holds it,
      and both texture ids; nothing of the resolved textures reaches the
      document. */
  function Serialize(m: Material): (d: Document)
    ensures d.diffuse == TextRgb(ToText(m.diffuse.r), ToText(m.diffuse.g), ToText(m.diffuse.b))
    ensures d.diffuseTexture == m.diffuseTexture.id && d.normalTexture == m.normalTexture.id
  {
    var c := m.diffuse;
    Document(TextRgb(ToText(c.r), ToText(c.g), ToText(c.b)), m.diffuseTexture.id, m.normalTexture.id)
  }

  /** Reading a document back: a skipped field takes its default, `None`. */
  function Deserialize(d: Document): (m: Material)
    ensures Unresolved(m)
  {
    var c := d.diffuse;
    Material(Rgb(c.r, c.g, c.b), NewTextureId(d.diffuseTexture), NewTextureId(d.normalTexture))
  }

  lemma DocumentRoundTrip(d: Document)
    ensures Serialize(Deserialize(d)) == d
  {
  }

  /** Every channel is a value YAML text can hold: not a NaN, or `f32::NAN`
      itself. */
  predicate TextExact(c: Rgb) {
    (!IsNaN(c.r) || c.r == F32_NAN) && (!IsNaN(c.g) || c.g == F32_NAN) && (!IsNaN(c.b) || c.b == F32_NAN)
  }

  /** Saving and loading keeps every channel that is not a NaN bit for bit,
      turns a NaN channel into `f32::NAN`, keeps both texture ids and drops
      the resolved textures; a material comes back unchanged exactly when it
      holds no resolved texture and its colour is one the text can hold. */
  lemma MaterialRoundTrip(m: Material)
    ensures Deserialize(Serialize(m)).diffuse == Rgb(ToText(m.diffuse.r), ToText(m.diffuse.g), ToText(m.diffuse.b))
    ensures Deserialize(Serialize(m)).diffuseTexture.id == m.diffuseTexture.id
    ensures Deserialize(Serialize(m)).normalTexture.id == m.normalTexture.id
    ensures Deserialize(Serialize(m)) == m <==> Unresolved(m) && TextExact(m.diffuse)
  {
  }

  /** A negative NaN in the diffuse colour comes back as the positive
      `f32::NAN`: the round trip is not the identity on every material. */
  lemma NaNChannelNormalised()
    ensures var m := NewMaterial(Rgb(0xFFC0_0000, F32_ONE, F32_ONE), None, None);
      Deserialize(Serialize(m)) != m && Deserialize(Serialize(m)).diffuse.r == F32_NAN
  {
    assert IsNaN(0xFFC0_0000);
  }

  /** The extension classes of `AssetType`; its classifier
      `AssetType::from_extension` is a parameter of the model. */
  datatype AssetType = MaterialAsset | TextureAsset | OtherAsset

  const MATERIAL_EXTENSION: string := ".revmat"

  /** The file system, reduced to the material documents written to it. */
  class Disk {
    var files: map<PathBuf, Document>

    constructor (files: map<PathBuf, Document>)
      ensures this.files == files
    {
      this.files := files;
    }
  }

  /** The file `Material::create` writes. */
  function CreatedFile(dir: PathBuf, name: string): (p: PathBuf)
    ensures |p| == |dir| + 1 && p[..|dir|] == dir
    ensures p[|dir|] == name + MATERIAL_EXTENSION
  {
    dir + [name + MATERIAL_EXTENSION]
  }

  /** `Material::create`: writes the default material to `<name>.revmat`
      inside `dir` and returns it. */
  method Create(disk: Disk, dir: PathBuf, name: string) returns (m: Material)
    modifies disk
    ensures m == DefaultMaterial()
    ensures disk.files == old(disk.files)[CreatedFile(dir, name) := Serialize(m)]
  {
    m := DefaultMaterial();
    disk.files := disk.files[CreatedFile(dir, name) := Serialize(m)];
  }

  /** `Material::load`: a missing file panics. */
  method Load(disk: Disk, path: PathBuf) returns (m: Material)
    requires path in disk.files
    ensures m == Deserialize(disk.files[path])
    ensures Serialize(m) == disk.files[path] && Unresolved(m)
  {
    m := Deserialize(disk.files[path]);
  }

  /** Whether `save` writes: only a path whose file name has an extension
      that classifies as a material. */
  predicate SaveWrites(path: PathBuf, fromExtension: string -> AssetType) {
    path != [] && Extension(path[|path| - 1]).Some?
      && fromExtension(Extension(path[|path| - 1]).value) == MaterialAsset
  }

  /** `Material::save`: a guarded write, otherwise nothing happens. */
  method Save(m: Material, disk: Disk, path: PathBuf, fromExtension: string -> AssetType)
    modifies disk
    ensures SaveWrites(path, fromExtension) ==> disk.files == old(disk.files)[path := Serialize(m)]
    ensures !SaveWrites(path, fromExtension) ==> disk.files == old(disk.files)
  {
    if path != [] {
      var ext := Extension(path[|path| - 1]);
      if ext.Some? && fromExtension(ext.value) == MaterialAsset {
        disk.files := disk.files[path := Serialize(m)];
      }
    }
  }

  /** `cast_slice(&[diffuse])`: the three channels as little-endian words. */
  function DiffuseBytes(c: Rgb): (r: seq<byte>)
    ensures |r| == 12
  {
    CastWords([c.r, c.g, c.b])
  }

  lemma DiffuseBytesRoundTrip(c: Rgb)
    ensures WordsFromBytes(DiffuseBytes(c)) == [c.r, c.g, c.b]
  {
    CastWordsRoundTrip([c.r, c.g, c.b]);
  }

  /** `Gpu<Material>::update_diffuse_buffer`: the colour goes to the start of
      buffer 0 and to no other buffer. */
  method UpdateDiffuseBuffer(gpu: Gpu<Material>, diffuse: Rgb)
    requires gpu.buffers.Length > 0 && |gpu.buffers[0]| >= 12
    modifies gpu.buffers
    ensures |gpu.buffers[0]| == |old(gpu.buffers[0])|
    ensures gpu.buffers[0][..12] == DiffuseBytes(diffuse)
    ensures gpu.buffers[0][12..] == old(gpu.buffers[0])[12..]
    ensures forall j :: 0 < j < gpu.buffers.Length ==> gpu.buffers[j] == old(gpu.buffers[j])
  {
    gpu.UpdateBuffer(0, DiffuseBytes(diffuse));
  }
}
