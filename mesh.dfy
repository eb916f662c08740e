/**
 * Graphics Mesh: positions, texture coordinates and 16-bit indices kept on
 * the CPU, interleaved into vertex records and handed to the GPU by Create.
 * Indices are stored as the raw bytes of their uint16 array (little-endian),
 * so that Create recovers the index count from the byte size as the engine does.
 */
module Mesh {
  import opened Wrappers
  import opened CoreBuffer
  import opened Vectors

  newtype uint16 = x: int | 0 <= x < 0x10000

  /** The vertex record Create uploads: position, colour, texture coordinate. */
  datatype VertexColorTexture = VertexColorTexture(position: Vec3, color: Vec4, textureCoordinate: Vec2)

  /** What a mesh handed to the GPU: its interleaved vertices and its indices. */
  datatype GpuMesh = GpuMesh(vertices: seq<VertexColorTexture>, indices: seq<uint16>)

  const IndexSize: nat := 2
  const White: Vec4 := Vec4(1.0, 1.0, 1.0, 1.0)

  function LowByte(x: uint16): uint8 { (x as int % 0x100) as uint8 }
  function HighByte(x: uint16): uint8 { (x as int / 0x100) as uint8 }

  /** The bytes of a uint16 array, low byte first. */
  function EncodeIndices(xs: seq<uint16>): (bytes: seq<uint8>)
    ensures |bytes| == IndexSize * |xs|
  {
    seq(2 * |xs|, k requires 0 <= k < 2 * |xs| => if k % 2 == 0 then LowByte(xs[k / 2]) else HighByte(xs[k / 2]))
  }

  /** Reading a byte buffer as uint16s: Size / 2 elements, a trailing odd byte ignored. */
  function DecodeIndices(bytes: seq<uint8>): (xs: seq<uint16>)
    ensures |xs| == |bytes| / IndexSize
  {
    seq(|bytes| / 2, i requires 0 <= i < |bytes| / 2 => (bytes[2 * i] as int + 0x100 * bytes[2 * i + 1] as int) as uint16)
  }

  /** Storing indices as bytes and reading them back gives the same indices. */
  lemma DecodeEncodeIndices(xs: seq<uint16>)
    ensures DecodeIndices(EncodeIndices(xs)) == xs
  {
    var bytes := EncodeIndices(xs);
    forall i | 0 <= i < |xs|
      ensures DecodeIndices(bytes)[i] == xs[i]
    {
      assert bytes[2 * i] == LowByte(xs[i]);
      assert bytes[2 * i + 1] == HighByte(xs[i]);
    }
  }

  /** Every index names one of the first vertexCount vertices. */
  predicate IndicesInRange(indices: seq<uint16>, vertexCount: nat)
  {
    forall i :: 0 <= i < |indices| ==> indices[i] as int < vertexCount
  }

  /** The data Create hands to the GPU for the given CPU-side arrays. */
  predicate UploadedFrom(g: GpuMesh, vertices: seq<Vec3>, uvs: seq<Vec2>, indexBytes: seq<uint8>)
    requires |uvs| >= |vertices|
  {
    && |g.vertices| == |vertices|
    && (forall i :: 0 <= i < |vertices| ==> g.vertices[i] == VertexColorTexture(vertices[i], White, uvs[i]))
    && g.indices == DecodeIndices(indexBytes)
  }

  /** The vertex loop of Create: record i takes position i, white and texture coordinate i. */
  method InterleaveVertices(vertices: seq<Vec3>, uvs: seq<Vec2>) returns (records: seq<VertexColorTexture>)
    requires |uvs| >= |vertices|
    ensures |records| == |vertices|
    ensures forall i :: 0 <= i < |vertices| ==> records[i].position == vertices[i] && records[i].color == White && records[i].textureCoordinate == uvs[i]
  {
    var vertexCount := |vertices|;
    records := [];
    for i := 0 to vertexCount
      invariant |records| == i
      invariant forall j :: 0 <= j < i ==> records[j] == VertexColorTexture(vertices[j], White, uvs[j])
    {
      records := records + [VertexColorTexture(vertices[i], White, uvs[i])];
    }
  }

  /** The index loop of Create: Size / 2 indices, each read from its two stored bytes. */
  method CopyIndices(indexBytes: seq<uint8>) returns (indices: seq<uint16>)
    ensures |indices| == |indexBytes| / IndexSize
    ensures forall i :: 0 <= i < |indices| ==> indices[i] as int == indexBytes[2 * i] as int + 0x100 * indexBytes[2 * i + 1] as int
  {
    var indexCount := |indexBytes| / IndexSize;
    indices := [];
    for i := 0 to indexCount
      invariant |indices| == i
      invariant forall j :: 0 <= j < i ==> indices[j] as int == indexBytes[2 * j] as int + 0x100 * indexBytes[2 * j + 1] as int
    {
      indices := indices + [(indexBytes[2 * i] as int + 0x100 * indexBytes[2 * i + 1] as int) as uint16];
    }
  }

  class Mesh {
    var indexBytes: seq<uint8>
    var vertices: seq<Vec3>
    var uvs: seq<Vec2>
    var gpuMesh: Option<GpuMesh>

    /** A new mesh has empty buffers and no GPU mesh. */
    constructor ()
      ensures indexBytes == [] && vertices == [] && uvs == [] && gpuMesh == None
    {
      indexBytes := [];
      vertices := [];
      uvs := [];
      gpuMesh := None;
    }

    /** SetIndices(indices, count): the stored bytes are those of the first count indices. */
    method SetIndices(indices: seq<uint16>, count: nat)
      requires count <= |indices|
      modifies this
      ensures indexBytes == EncodeIndices(indices[..count])
      ensures vertices == old(vertices) && uvs == old(uvs) && gpuMesh == old(gpuMesh)
    {
      indexBytes := EncodeIndices(indices[..count]);
    }

    /** SetVertices(vertices, count): the first count positions replace the stored ones. */
    method SetVertices(positions: seq<Vec3>, count: nat)
      requires count <= |positions|
      modifies this
      ensures vertices == positions[..count]
      ensures indexBytes == old(indexBytes) && uvs == old(uvs) && gpuMesh == old(gpuMesh)
    {
      vertices := positions[..count];
    }

    /** SetUVs(uvs, count): the first count texture coordinates replace the stored ones. */
    method SetUVs(coordinates: seq<Vec2>, count: nat)
      requires count <= |coordinates|
      modifies this
      ensures uvs == coordinates[..count]
      ensures indexBytes == old(indexBytes) && vertices == old(vertices) && gpuMesh == old(gpuMesh)
    {
      uvs := coordinates[..count];
    }

    /** Create: interleaves the vertices, copies the indices and keeps the uploaded mesh. */
    method Create()
      requires |uvs| >= |vertices|
      modifies this
      ensures indexBytes == old(indexBytes) && vertices == old(vertices) && uvs == old(uvs)
      ensures gpuMesh.Some? && UploadedFrom(gpuMesh.value, vertices, uvs, indexBytes)
    {
      var records := InterleaveVertices(vertices, uvs);
      var indices := CopyIndices(indexBytes);
      gpuMesh := Some(GpuMesh(records, indices));
    }

    /** Release: the GPU mesh is given back and the handle cleared. */
    method Release()
      modifies this
      ensures gpuMesh == None
      ensures indexBytes == old(indexBytes) && vertices == old(vertices) && uvs == old(uvs)
    {
      gpuMesh := None;
    }
  }

  function QuadVertices(width: real, height: real): seq<Vec3>
  {
    [ Vec3(-width / 2.0, height / 2.0, 0.0), Vec3(-width / 2.0, -height / 2.0, 0.0),
      Vec3(width / 2.0, -height / 2.0, 0.0), Vec3(width / 2.0, height / 2.0, 0.0) ]
  }

  const QuadIndices: seq<uint16> := [0, 1, 2, 2, 3, 0]
  const QuadUVs: seq<Vec2> := [Vec2(0.0, 0.0), Vec2(0.0, 1.0), Vec2(1.0, 1.0), Vec2(1.0, 0.0)]

  /** CreateQuad: a new mesh with the four corners, the two triangles and the four texture corners. */
  method CreateQuad(width: real, height: real) returns (mesh: Mesh)
    ensures fresh(mesh)
    ensures mesh.vertices == QuadVertices(width, height) && mesh.uvs == QuadUVs
    ensures DecodeIndices(mesh.indexBytes) == QuadIndices
    ensures mesh.gpuMesh == None
  {
    mesh := new Mesh();
    mesh.SetVertices(QuadVertices(width, height), 4);
    mesh.SetIndices(QuadIndices, 6);
    mesh.SetUVs(QuadUVs, 4);
    assert QuadIndices[..6] == QuadIndices;
    DecodeEncodeIndices(QuadIndices);
  }

  /** Indices that are in range stay in range once stored as bytes and read back by Create. */
  lemma StoredIndicesInRange(xs: seq<uint16>, vertexCount: nat)
    requires IndicesInRange(xs, vertexCount)
    ensures IndicesInRange(DecodeIndices(EncodeIndices(xs)), vertexCount)
  {
    DecodeEncodeIndices(xs);
  }

  /** The stored quad indices, read back, all name one of its four vertices. */
  lemma QuadIndicesInRange(width: real, height: real)
    ensures IndicesInRange(DecodeIndices(EncodeIndices(QuadIndices)), |QuadVertices(width, height)|)
  {
    assert IndicesInRange(QuadIndices, 4);
    StoredIndicesInRange(QuadIndices, 4);
  }

  /**
   * For a quad of positive size, texture coordinate u is 0 exactly on the left
   * edge and v is 0 exactly on the top edge: the texture is mapped upright and
   * not mirrored.
   */
  lemma QuadTextureOrientation(width: real, height: real)
    requires width > 0.0 && height > 0.0
    ensures forall i :: 0 <= i < 4 ==> (QuadUVs[i].x == 0.0 <==> QuadVertices(width, height)[i].x < 0.0)
    ensures forall i :: 0 <= i < 4 ==> (QuadUVs[i].y == 0.0 <==> QuadVertices(width, height)[i].y > 0.0)
  {
  }

  /** The engine's default meshes: the shared unit quad. */
  class DefaultMeshes {
    var quad: Mesh?

    constructor ()
      ensures quad == null
    {
      quad := null;
    }

    /** LoadDefaultMeshes: a fresh 1x1 quad, already created on the GPU. */
    method LoadDefaultMeshes()
      modifies this
      ensures quad != null && fresh(quad)
      ensures quad.vertices == QuadVertices(1.0, 1.0) && quad.uvs == QuadUVs
      ensures DecodeIndices(quad.indexBytes) == QuadIndices
      ensures quad.gpuMesh.Some? && UploadedFrom(quad.gpuMesh.value, quad.vertices, quad.uvs, quad.indexBytes)
    {
      var q := CreateQuad(1.0, 1.0);
      q.Create();
      quad := q;
    }

    /** UnloadDefaultMeshes: the quad's GPU mesh is released and the quad dropped. */
    method UnloadDefaultMeshes()
      requires quad != null
      modifies this, quad
      ensures quad == null && old(quad).gpuMesh == None
    {
      quad.Release();
      quad := null;
    }
  }
}
