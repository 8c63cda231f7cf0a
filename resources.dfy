/** Loading from the `res` directory: path building, and the post-processing
    `load_mesh` applies to each parsed OBJ model. */
module Resources {
  import opened Base
  import opened Paths

  datatype IoError = NotFound

  /** Where `load_string` and `load_binary` look for `fileName`. */
  function ResourcePath(cwd: PathBuf, fileName: string): PathBuf {
    cwd + ["res"] + Split(fileName)
  }

  /** The loop shared by `load_string` and `load_binary`: push "res", then
      every '/'-separated piece of the file name. */
  method ResolvePath(cwd: PathBuf, fileName: string) returns (path: PathBuf)
    ensures path == ResourcePath(cwd, fileName)
  {
    path := cwd + ["res"];
    var dirs := Split(fileName);
    var i := 0;
    while i < |dirs|
      invariant i <= |dirs|
      invariant path == cwd + ["res"] + dirs[..i]
    {
      path := path + [dirs[i]];
      assert dirs[..i + 1] == dirs[..i] + [dirs[i]];
      i := i + 1;
    }
    assert dirs[..i] == dirs;
  }

  /** `load_string`: the file's text, or the read error. */
  method LoadString(files: map<PathBuf, string>, cwd: PathBuf, fileName: string)
    returns (r: Result<string, IoError>)
    ensures ResourcePath(cwd, fileName) in files ==> r == Ok(files[ResourcePath(cwd, fileName)])
    ensures ResourcePath(cwd, fileName) !in files ==> r == Err(NotFound)
  {
    var path := ResolvePath(cwd, fileName);
    if path in files {
      r := Ok(files[path]);
    } else {
      r := Err(NotFound);
    }
  }

  /** `load_binary`: the file's bytes, or the read error. */
  method LoadBinary(files: map<PathBuf, seq<byte>>, cwd: PathBuf, fileName: string)
    returns (r: Result<seq<byte>, IoError>)
    ensures ResourcePath(cwd, fileName) in files ==> r == Ok(files[ResourcePath(cwd, fileName)])
    ensures ResourcePath(cwd, fileName) !in files ==> r == Err(NotFound)
  {
    var path := ResolvePath(cwd, fileName);
    if path in files {
      r := Ok(files[path]);
    } else {
      r := Err(NotFound);
    }
  }

  /** The string `load_mesh` hands to `load_string` for the material
      library: the mesh path with its extension replaced by "mtl". */
  function MtlFileName(filePath: PathBuf): string
    requires filePath != []
  {
    Join(SetExtension(filePath, "mtl"))
  }

  /** The material library is looked up under `res`, segment by segment of
      the mesh path with the new extension, even though the mesh itself was
      read from `filePath` as given. */
  lemma MtlResourcePath(cwd: PathBuf, filePath: PathBuf)
    requires filePath != [] && filePath[|filePath| - 1] != ".." && filePath[|filePath| - 1] != []
    requires forall p :: p in filePath ==> '/' !in p
    ensures ResourcePath(cwd, MtlFileName(filePath)) == cwd + ["res"] + SetExtension(filePath, "mtl")
    ensures Extension(SetExtension(filePath, "mtl")[|filePath| - 1]) == Some("mtl")
  {
    var mtl := SetExtension(filePath, "mtl");
    SetExtensionStem(filePath, "mtl");
    forall p | p in mtl
      ensures '/' !in p
    {
      var k :| 0 <= k < |mtl| && mtl[k] == p;
      if k < |mtl| - 1 {
        assert p == filePath[..|filePath| - 1][k];
      } else {
        assert p == Stem(filePath[|filePath| - 1]) + ".mtl";
        StemNoSeparator(filePath[|filePath| - 1]);
      }
    }
    SplitJoin(mtl);
  }

  lemma StemNoSeparator(name: string)
    requires '/' !in name
    ensures '/' !in Stem(name)
  {
    if LastDot(name).Some? && name != ".." && LastDot(name).value != 0 {
      var i := LastDot(name).value;
      assert forall c :: c in name[..i] ==> c in name;
    }
  }

  // ----- Mesh post-processing -----

  datatype Vec2 = Vec2(u: f32, v: f32)

  datatype Vec3 = Vec3(x: f32, y: f32, z: f32)

  const ZERO3: Vec3 := Vec3(F32_ZERO, F32_ZERO, F32_ZERO)

  datatype ModelVertex = ModelVertex(position: Vec3, texCoords: Vec2, normal: Vec3, tangent: Vec3, bitangent: Vec3)

  /** What the OBJ parser gives for one model (single index, triangulated). */
  datatype ObjMesh = ObjMesh(positions: seq<f32>, texcoords: seq<f32>, normals: seq<f32>,
                             indices: seq<u32>, materialId: Option<nat>)

  function VertexCount(m: ObjMesh): nat {
    |m.positions| / 3
  }

  /** Building the vertices indexes texcoords and normals for every vertex
      position; shorter arrays panic. */
  predicate AttributesCover(m: ObjMesh) {
    2 * VertexCount(m) <= |m.texcoords| && 3 * VertexCount(m) <= |m.normals|
  }

  /** The triangle loop reads whole index triples and indexes the vertices
      with them; a partial triple or a stray index panics, and so does a
      vertex named more often than its `i32` counter can count. */
  predicate TriangleList(m: ObjMesh) {
    |m.indices| % 3 == 0 && (forall k :: 0 <= k < |m.indices| ==> m.indices[k] < VertexCount(m))
    && CountsFit(m.indices, VertexCount(m))
  }

  /** One vertex from the flat attribute arrays; tangent frame zero. */
  function VertexAt(m: ObjMesh, i: nat): ModelVertex
    requires AttributesCover(m) && i < VertexCount(m)
  {
    ModelVertex(
      Vec3(m.positions[3 * i], m.positions[3 * i + 1], m.positions[3 * i + 2]),
      Vec2(m.texcoords[2 * i], m.texcoords[2 * i + 1]),
      Vec3(m.normals[3 * i], m.normals[3 * i + 1], m.normals[3 * i + 2]),
      ZERO3, ZERO3)
  }

  /** The vertex list `load_mesh` builds before the triangle loop. */
  function Deinterleave(m: ObjMesh): (vs: seq<ModelVertex>)
    requires AttributesCover(m)
    ensures |vs| == VertexCount(m)
    ensures forall i :: 0 <= i < |vs| ==> vs[i].tangent == ZERO3 && vs[i].bitangent == ZERO3
  {
    seq(VertexCount(m), i requires 0 <= i < VertexCount(m) => VertexAt(m, i))
  }

  function Positions(vs: seq<ModelVertex>): (r: seq<f32>)
    ensures |r| == 3 * |vs|
  {
    if vs == [] then []
    else
      var p := vs[|vs| - 1].position;
      Positions(vs[..|vs| - 1]) + [p.x, p.y, p.z]
  }

  function TexCoords(vs: seq<ModelVertex>): (r: seq<f32>)
    ensures |r| == 2 * |vs|
  {
    if vs == [] then []
    else
      var t := vs[|vs| - 1].texCoords;
      TexCoords(vs[..|vs| - 1]) + [t.u, t.v]
  }

  function Normals(vs: seq<ModelVertex>): (r: seq<f32>)
    ensures |r| == 3 * |vs|
  {
    if vs == [] then []
    else
      var n := vs[|vs| - 1].normal;
      Normals(vs[..|vs| - 1]) + [n.x, n.y, n.z]
  }

  /** Interleaving the vertices' attributes back gives the parser's flat
      arrays, cut to the vertex count. */
  lemma DeinterleaveRoundTrip(m: ObjMesh)
    requires AttributesCover(m)
    ensures Positions(Deinterleave(m)) == m.positions[..3 * VertexCount(m)]
    ensures TexCoords(Deinterleave(m)) == m.texcoords[..2 * VertexCount(m)]
    ensures Normals(Deinterleave(m)) == m.normals[..3 * VertexCount(m)]
  {
    var vs := Deinterleave(m);
    PositionsPrefix(m, VertexCount(m));
    TexCoordsPrefix(m, VertexCount(m));
    NormalsPrefix(m, VertexCount(m));
    assert vs[..VertexCount(m)] == vs;
  }

  lemma SliceThree<T>(s: seq<T>, j: nat)
    requires j + 3 <= |s|
    ensures s[..j + 3] == s[..j] + [s[j], s[j + 1], s[j + 2]]
  {
  }

  lemma SliceTwo<T>(s: seq<T>, j: nat)
    requires j + 2 <= |s|
    ensures s[..j + 2] == s[..j] + [s[j], s[j + 1]]
  {
  }

  lemma {:induction false} PositionsPrefix(m: ObjMesh, k: nat)
    requires AttributesCover(m) && k <= VertexCount(m)
    ensures Positions(Deinterleave(m)[..k]) == m.positions[..3 * k]
  {
    if k > 0 {
      var vs := Deinterleave(m);
      var j := k - 1;
      PositionsPrefix(m, j);
      assert vs[..k][..j] == vs[..j];
      assert vs[..k][j] == VertexAt(m, j);
      SliceThree(m.positions, 3 * j);
    }
  }

  lemma {:induction false} TexCoordsPrefix(m: ObjMesh, k: nat)
    requires AttributesCover(m) && k <= VertexCount(m)
    ensures TexCoords(Deinterleave(m)[..k]) == m.texcoords[..2 * k]
  {
    if k > 0 {
      var vs := Deinterleave(m);
      var j := k - 1;
      TexCoordsPrefix(m, j);
      assert vs[..k][..j] == vs[..j];
      assert vs[..k][j] == VertexAt(m, j);
      SliceTwo(m.texcoords, 2 * j);
    }
  }

  lemma {:induction false} NormalsPrefix(m: ObjMesh, k: nat)
    requires AttributesCover(m) && k <= VertexCount(m)
    ensures Normals(Deinterleave(m)[..k]) == m.normals[..3 * k]
  {
    if k > 0 {
      var vs := Deinterleave(m);
      var j := k - 1;
      NormalsPrefix(m, j);
      assert vs[..k][..j] == vs[..j];
      assert vs[..k][j] == VertexAt(m, j);
      SliceThree(m.normals, 3 * j);
    }
  }

  /** How often `v` occurs in `indices`. */
  function Occurrences(indices: seq<u32>, v: int): nat {
    if indices == [] then 0
    else Occurrences(indices[..|indices| - 1], v) + (if indices[|indices| - 1] == v then 1 else 0)
  }

  /** No vertex below `vertexCount` occurs more often than an `i32` counts. */
  predicate CountsFit(indices: seq<u32>, vertexCount: nat) {
    forall v :: 0 <= v < vertexCount ==> Occurrences(indices, v) <= I32_MAX
  }

  /** `triangles_included`: one `i32` counter per vertex, bumped once for
      each corner of each index triple that names it; the increment that
      would overflow panics. */
  method CountTriangles(indices: seq<u32>, vertexCount: nat) returns (counts: seq<i32>)
    requires |indices| % 3 == 0
    requires forall k :: 0 <= k < |indices| ==> indices[k] < vertexCount
    requires CountsFit(indices, vertexCount)
    ensures |counts| == vertexCount
    ensures forall v :: 0 <= v < vertexCount ==> counts[v] == Occurrences(indices, v)
  {
    var included := new i32[vertexCount](_ => 0);
    var t := 0;
    while t < |indices|
      invariant t <= |indices| && t % 3 == 0
      invariant forall v :: 0 <= v < vertexCount ==> included[v] == Occurrences(indices[..t], v)
    {
      var c0, c1, c2 := indices[t], indices[t + 1], indices[t + 2];
      OccurrencesTriple(indices, t);
      PrefixFits(indices, t + 3, vertexCount);
      included[c0] := included[c0] + 1;
      included[c1] := included[c1] + 1;
      included[c2] := included[c2] + 1;
      t := t + 3;
    }
    assert indices[..t] == indices;
    counts := included[..];
  }

  /** A prefix names `v` no more often than the whole sequence. */
  lemma {:induction false} OccurrencesPrefix(indices: seq<u32>, t: nat, v: int)
    requires t <= |indices|
    ensures Occurrences(indices[..t], v) <= Occurrences(indices, v)
  {
    if t < |indices| {
      var init := indices[..|indices| - 1];
      assert init[..t] == indices[..t];
      OccurrencesPrefix(init, t, v);
    } else {
      assert indices[..t] == indices;
    }
  }

  /** Every counter partway through the loop is within `i32`. */
  lemma PrefixFits(indices: seq<u32>, t: nat, vertexCount: nat)
    requires t <= |indices| && CountsFit(indices, vertexCount)
    ensures CountsFit(indices[..t], vertexCount)
  {
    forall v | 0 <= v < vertexCount ensures Occurrences(indices[..t], v) <= I32_MAX {
      OccurrencesPrefix(indices, t, v);
    }
  }

  lemma OccurrencesTriple(indices: seq<u32>, t: nat)
    requires t + 3 <= |indices|
    ensures forall v :: (Occurrences(indices[..t + 3], v)
      == Occurrences(indices[..t], v) + (if indices[t] == v then 1 else 0)
         + (if indices[t + 1] == v then 1 else 0) + (if indices[t + 2] == v then 1 else 0))
  {
    assert indices[..t + 3][..t + 2] == indices[..t + 2];
    assert indices[..t + 2][..t + 1] == indices[..t + 1];
    assert indices[..t + 1][..t] == indices[..t];
    forall v
      ensures Occurrences(indices[..t + 3], v)
        == Occurrences(indices[..t], v) + (if indices[t] == v then 1 else 0)
           + (if indices[t + 1] == v then 1 else 0) + (if indices[t + 2] == v then 1 else 0)
    {
      calc {
        Occurrences(indices[..t + 3], v);
        Occurrences(indices[..t + 2], v) + (if indices[t + 2] == v then 1 else 0);
        Occurrences(indices[..t + 1], v) + (if indices[t + 1] == v then 1 else 0)
          + (if indices[t + 2] == v then 1 else 0);
      }
    }
  }

  /** `indices.len() as u32`: the cast wraps. */
  function ElementCount(indices: seq<u32>): (n: u32)
    ensures |indices| < 0x1_0000_0000 ==> n == |indices|
  {
    |indices| % 0x1_0000_0000
  }

  /** `material_id.unwrap_or(0)`. */
  function MaterialSlot(materialId: Option<nat>): (slot: nat)
    ensures materialId.Some? ==> slot == materialId.value
    ensures materialId.None? ==> slot == 0
  {
    if materialId.Some? then materialId.value else 0
  }

  /** The words of one `#[repr(C)]` vertex, field by field. */
  function VertexWords(v: ModelVertex): (r: seq<u32>)
    ensures |r| == 14
  {
    [v.position.x, v.position.y, v.position.z, v.texCoords.u, v.texCoords.v,
     v.normal.x, v.normal.y, v.normal.z, v.tangent.x, v.tangent.y, v.tangent.z,
     v.bitangent.x, v.bitangent.y, v.bitangent.z]
  }

  function VerticesWords(vs: seq<ModelVertex>): (r: seq<u32>)
    ensures |r| == 14 * |vs|
  {
    if vs == [] then [] else VertexWords(vs[0]) + VerticesWords(vs[1..])
  }

  /** The tangent and bitangent the float accumulation and averaging leave
      on one vertex. */
  datatype TangentFrame = TangentFrame(tangent: Vec3, bitangent: Vec3)

  /** The floating-point tangent maths of the triangle loop and of the
      averaging loop after it, left uninterpreted: given the de-interleaved
      vertices and the indices, a frame per vertex. */
  type TangentMaths = (seq<ModelVertex>, seq<u32>) -> seq<TangentFrame>

  /** The vertices with their tangent frames replaced; a vertex without a
      frame keeps its own. */
  function WithFrames(vs: seq<ModelVertex>, fs: seq<TangentFrame>): (r: seq<ModelVertex>)
    ensures |r| == |vs|
    ensures forall i :: 0 <= i < |r| ==>
      r[i].position == vs[i].position && r[i].texCoords == vs[i].texCoords && r[i].normal == vs[i].normal
  {
    seq(|vs|, i requires 0 <= i < |vs| =>
      if i < |fs| then vs[i].(tangent := fs[i].tangent, bitangent := fs[i].bitangent) else vs[i])
  }

  /** Vertex lists that agree on position, texture coordinates and normal
      give the same flat arrays back. */
  lemma {:induction false} SameAttributes(vs: seq<ModelVertex>, ws: seq<ModelVertex>)
    requires |vs| == |ws|
    requires forall i :: 0 <= i < |vs| ==>
      vs[i].position == ws[i].position && vs[i].texCoords == ws[i].texCoords && vs[i].normal == ws[i].normal
    ensures Positions(vs) == Positions(ws) && TexCoords(vs) == TexCoords(ws) && Normals(vs) == Normals(ws)
  {
    if vs != [] {
      var n := |vs| - 1;
      SameAttributes(vs[..n], ws[..n]);
    }
  }

  /** The vertices whose words go into the vertex buffer. */
  function FinalVertices(m: ObjMesh, tangents: TangentMaths): (vs: seq<ModelVertex>)
    requires AttributesCover(m)
    ensures |vs| == VertexCount(m)
  {
    var base := Deinterleave(m);
    WithFrames(base, tangents(base, m.indices))
  }

  /** Whatever the tangent maths computes, the vertex buffer carries the
      parser's positions, texture coordinates and normals unchanged. */
  lemma FinalAttributes(m: ObjMesh, tangents: TangentMaths)
    requires AttributesCover(m)
    ensures Positions(FinalVertices(m, tangents)) == m.positions[..3 * VertexCount(m)]
    ensures TexCoords(FinalVertices(m, tangents)) == m.texcoords[..2 * VertexCount(m)]
    ensures Normals(FinalVertices(m, tangents)) == m.normals[..3 * VertexCount(m)]
  {
    SameAttributes(FinalVertices(m, tangents), Deinterleave(m));
    DeinterleaveRoundTrip(m);
  }

  /** A buffer made with `create_buffer_init`: never written again. */
  datatype DeviceBuffer = DeviceBuffer(handle: Handle, contents: seq<byte>)

  /** One device mesh (`asset::model::Mesh`). */
  datatype Mesh = Mesh(name: string, vertexBuffer: DeviceBuffer, indexBuffer: DeviceBuffer,
                       elementCount: u32, material: nat)

  /** Everything `load_mesh` fixes about the mesh made from `m`, apart from
      the buffer identities the device picks. */
  predicate MeshOf(mesh: Mesh, filePath: PathBuf, m: ObjMesh, tangents: TangentMaths)
    requires AttributesCover(m)
  {
    && mesh.name == (if filePath == [] then "" else Join(filePath))
    && mesh.vertexBuffer.contents == CastWords(VerticesWords(FinalVertices(m, tangents)))
    && mesh.indexBuffer.contents == CastWords(m.indices)
    && mesh.elementCount == ElementCount(m.indices)
    && mesh.material == MaterialSlot(m.materialId)
  }

  /** The body of the `map` over parsed models. `trianglesIncluded` is the
      divisor of the averaging step. */
  method BuildMesh(device: Device, filePath: PathBuf, m: ObjMesh, tangents: TangentMaths)
    returns (mesh: Mesh, trianglesIncluded: seq<i32>)
    requires AttributesCover(m) && TriangleList(m)
    modifies device
    ensures MeshOf(mesh, filePath, m, tangents)
    ensures mesh.vertexBuffer.handle == Handle(old(device.next))
    ensures mesh.indexBuffer.handle == Handle(old(device.next) + 1)
    ensures device.next == old(device.next) + 2
    ensures |trianglesIncluded| == VertexCount(m)
    ensures forall v :: 0 <= v < VertexCount(m) ==> trianglesIncluded[v] == Occurrences(m.indices, v)
  {
    var vertices := Deinterleave(m);
    trianglesIncluded := CountTriangles(m.indices, |vertices|);
    vertices := WithFrames(vertices, tangents(vertices, m.indices));
    var vb := device.Allocate();
    var ib := device.Allocate();
    var name := if filePath == [] then "" else Join(filePath);
    mesh := Mesh(name, DeviceBuffer(vb, CastWords(VerticesWords(vertices))),
                 DeviceBuffer(ib, CastWords(m.indices)), ElementCount(m.indices), MaterialSlot(m.materialId));
  }

  /** The mesh made from `m` whose two buffers are the device's handles
      `first` and `first + 1`. */
  predicate MeshAt(mesh: Mesh, filePath: PathBuf, m: ObjMesh, tangents: TangentMaths, first: nat)
    requires AttributesCover(m)
  {
    MeshOf(mesh, filePath, m, tangents)
    && mesh.vertexBuffer.handle == Handle(first) && mesh.indexBuffer.handle == Handle(first + 1)
  }

  /** `load_mesh`: `objFiles` maps each readable OBJ path to what the
      parser makes of it. An unreadable file is an error; otherwise one mesh
      per model, in order, each with two buffers fresh from the device. */
  method LoadMesh(device: Device, objFiles: map<PathBuf, seq<ObjMesh>>, filePath: PathBuf, tangents: TangentMaths)
    returns (r: Result<seq<Mesh>, IoError>)
    requires filePath in objFiles ==> forall m :: m in objFiles[filePath] ==> AttributesCover(m) && TriangleList(m)
    modifies device
    ensures filePath !in objFiles <==> r == Err(NotFound)
    ensures r.Ok? ==> |r.value| == |objFiles[filePath]|
    ensures r.Ok? ==> forall k :: 0 <= k < |r.value| ==>
      MeshAt(r.value[k], filePath, objFiles[filePath][k], tangents, old(device.next) + 2 * k)
    ensures device.next == old(device.next) + (if r.Ok? then 2 * |r.value| else 0)
  {
    if filePath !in objFiles {
      return Err(NotFound);
    }
    var models := objFiles[filePath];
    var meshes: seq<Mesh> := [];
    var k := 0;
    while k < |models|
      invariant k <= |models| && |meshes| == k
      invariant forall j :: 0 <= j < k ==> MeshAt(meshes[j], filePath, models[j], tangents, old(device.next) + 2 * j)
      invariant device.next == old(device.next) + 2 * k
    {
      assert models[k] in objFiles[filePath];
      assert AttributesCover(models[k]) && TriangleList(models[k]);
      var mesh, _ := BuildMesh(device, filePath, models[k], tangents);
      assert MeshAt(mesh, filePath, models[k], tangents, old(device.next) + 2 * k);
      meshes := meshes + [mesh];
      k := k + 1;
    }
    r := Ok(meshes);
  }
}
