/** `createSphereVAO` of Assignment3 without its GL calls: the two pairs of
    nested loops that fill the vertex and index vectors, and the
    `vertexCount` out-parameter. */
module SphereBuilder {
  import opened Geometry
  import opened SphereMesh
  import opened SphereProperties

  /** `createSphereVAO` without the GL calls: the two nested loop pairs and the
      `vertexCount` out-parameter. */
  method CreateSphere(sectorCount: int, stackCount: int)
    returns (vertices: seq<GridVertex>, indices: seq<int>, vertexCount: int)
    ensures vertices == SphereVertices(sectorCount, stackCount)
    ensures indices == SphereIndices(sectorCount, stackCount)
    ensures vertexCount == |indices|
    ensures sectorCount >= 0 && stackCount >= 0 ==>
      FloatsPerVertex * |vertices| == 8 * (stackCount + 1) * (sectorCount + 1)
    ensures stackCount >= 1 ==> vertexCount == 6 * Count(sectorCount) * (stackCount - 1)
    ensures vertexCount % 3 == 0
    ensures forall x :: x in indices ==> 0 <= x < |vertices|
  {
    vertices := BuildVertices(sectorCount, stackCount);
    indices := BuildIndices(sectorCount, stackCount);
    vertexCount := |indices|;
    if sectorCount >= 0 && stackCount >= 0 {
      SphereVertexCount(sectorCount, stackCount);
    }
    SphereIndexCount(sectorCount, stackCount);
    SphereIndexBound(sectorCount, stackCount);
    SphereTriangles(sectorCount, stackCount);
  }

  /** The vertex loops: stack rows 0..stackCount, each with sector columns
      0..sectorCount. */
  method BuildVertices(sectorCount: int, stackCount: int) returns (vertices: seq<GridVertex>)
    ensures vertices == SphereVertices(sectorCount, stackCount)
  {
    vertices := [];
    var i := 0;
    while i <= stackCount
      invariant 0 <= i <= Count(stackCount + 1)
      invariant vertices == Grid(i, Count(sectorCount + 1))
    {
      var j := 0;
      while j <= sectorCount
        invariant 0 <= j <= Count(sectorCount + 1)
        invariant vertices == Grid(i, Count(sectorCount + 1)) + GridRow(i, j)
      {
        vertices := vertices + [GridVertex(i, j)];
        j := j + 1;
      }
      i := i + 1;
    }
  }

  /** The index loops: for each stack, the cells of all its sectors. */
  method BuildIndices(sectorCount: int, stackCount: int) returns (indices: seq<int>)
    ensures indices == SphereIndices(sectorCount, stackCount)
  {
    indices := [];
    var i := 0;
    while i < stackCount
      invariant 0 <= i <= Count(stackCount)
      invariant indices == StacksIndices(i, sectorCount, stackCount)
    {
      indices := AppendStack(indices, i, sectorCount, stackCount);
      i := i + 1;
    }
  }

  /** The inner index loop for stack `i`: `k1` and `k2` walk the current and
      the next stack row while each sector's triangles are appended. */
  method AppendStack(indices: seq<int>, i: int, sectorCount: int, stackCount: int) returns (r: seq<int>)
    ensures r == indices + StackIndices(i, Count(sectorCount), sectorCount, stackCount)
  {
    r := indices;
    var k1 := i * (sectorCount + 1);
    var k2 := k1 + sectorCount + 1;
    var j := 0;
    while j < sectorCount
      invariant 0 <= j <= Count(sectorCount)
      invariant k1 == i * (sectorCount + 1) + j && k2 == k1 + sectorCount + 1
      invariant r == indices + StackIndices(i, j, sectorCount, stackCount)
    {
      ghost var before := r;
      assert Cell(i, j, sectorCount, stackCount)
          == (if i != 0 then [k1, k2, k1 + 1] else []) + (if i != stackCount - 1 then [k1 + 1, k2, k2 + 1] else []);
      if i != 0 {
        r := r + [k1, k2, k1 + 1];
      }
      if i != stackCount - 1 {
        r := r + [k1 + 1, k2, k2 + 1];
      }
      assert r == before + Cell(i, j, sectorCount, stackCount);
      assert StackIndices(i, j + 1, sectorCount, stackCount)
          == StackIndices(i, j, sectorCount, stackCount) + Cell(i, j, sectorCount, stackCount);
      assert r == indices + StackIndices(i, j + 1, sectorCount, stackCount);
      j, k1, k2 := j + 1, k1 + 1, k2 + 1;
    }
  }
}
