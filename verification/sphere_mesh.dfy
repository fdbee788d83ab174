/** The mesh bookkeeping of Assignment3's `createSphereVAO`: the vertex grid
    (one vertex per stack row i in 0..stackCount and sector column j in
    0..sectorCount) and the index buffer built from it, and the texture
    format choice of `loadTexture`. `SphereBuilder.CreateSphere` runs the
    source's loops and is proved to build exactly these. */
module SphereMesh {
  import opened Geometry

  /** The vertex at stack row `stack` and sector column `sector`. It stands
      for the eight floats the source pushes for it (position, normal and
      texture coordinate), whose values are trigonometry left out here. */
  datatype GridVertex = GridVertex(stack: int, sector: int)

  const FloatsPerVertex: nat := 8

  /** Sectors 0..n-1 of stack row `i`. */
  function GridRow(i: int, n: nat): seq<GridVertex>
    decreases n
  {
    if n == 0 then [] else GridRow(i, n - 1) + [GridVertex(i, n - 1)]
  }

  /** Stack rows 0..m-1, each with `columns` vertices. */
  function Grid(m: nat, columns: nat): seq<GridVertex>
    decreases m
  {
    if m == 0 then [] else Grid(m - 1, columns) + GridRow(m - 1, columns)
  }

  /** The vertices of lines 214-242, in push order. */
  function SphereVertices(sectorCount: int, stackCount: int): seq<GridVertex> {
    Grid(Count(stackCount + 1), Count(sectorCount + 1))
  }

  /** The indices pushed for stack `i`, sector `j`: the upper triangle except
      on the first stack, the lower one except on the last. */
  function Cell(i: int, j: int, sectorCount: int, stackCount: int): seq<int> {
    var k1 := i * (sectorCount + 1) + j;
    var k2 := k1 + sectorCount + 1;
    (if i != 0 then [k1, k2, k1 + 1] else [])
      + (if i != stackCount - 1 then [k1 + 1, k2, k2 + 1] else [])
  }

  /** The indices of sectors 0..n-1 of stack `i`. */
  function StackIndices(i: int, n: nat, sectorCount: int, stackCount: int): seq<int>
    decreases n
  {
    if n == 0 then [] else StackIndices(i, n - 1, sectorCount, stackCount) + Cell(i, n - 1, sectorCount, stackCount)
  }

  /** The indices of stacks 0..m-1. */
  function StacksIndices(m: nat, sectorCount: int, stackCount: int): seq<int>
    decreases m
  {
    if m == 0 then []
    else StacksIndices(m - 1, sectorCount, stackCount) + StackIndices(m - 1, Count(sectorCount), sectorCount, stackCount)
  }

  /** The index buffer of lines 244-263. */
  function SphereIndices(sectorCount: int, stackCount: int): seq<int> {
    StacksIndices(Count(stackCount), sectorCount, stackCount)
  }

  datatype TextureFormat = Red | Rgb | Rgba

  /** The number of channels a format stores. */
  function Channels(f: TextureFormat): int {
    match f
    case Red => 1
    case Rgb => 3
    case Rgba => 4
  }

  /** `loadTexture`'s choice for an image with `nrComponents` channels:
      GL_RGB unless the count is 1 or 4. */
  function FormatFor(nrComponents: int): (f: TextureFormat)
    ensures Channels(f) == nrComponents || (f == Rgb && nrComponents != 1 && nrComponents != 4)
  {
    if nrComponents == 1 then Red
    else if nrComponents == 3 then Rgb
    else if nrComponents == 4 then Rgba
    else Rgb
  }
}
