/** What `createSphereVAO`'s loops guarantee about the mesh they build. */
module SphereProperties {
  import opened Geometry
  import opened SphereMesh

  lemma {:induction false} GridRowShape(i: int, n: nat)
    ensures |GridRow(i, n)| == n
    ensures forall j :: 0 <= j < n ==> GridRow(i, n)[j] == GridVertex(i, j)
    decreases n
  {
    if n > 0 {
      GridRowShape(i, n - 1);
    }
  }

  lemma {:induction false} GridLength(m: nat, columns: nat)
    ensures |Grid(m, columns)| == m * columns
    decreases m
  {
    if m > 0 {
      GridLength(m - 1, columns);
      GridRowShape(m - 1, columns);
      assert (m - 1) * columns + columns == m * columns;
    }
  }

  /** Vertex `i * columns + j` of the grid is the one at stack `i`, sector `j`. */
  lemma {:induction false} GridAt(m: nat, columns: nat, i: nat, j: nat)
    requires i < m && j < columns
    ensures i * columns + j < |Grid(m, columns)|
    ensures Grid(m, columns)[i * columns + j] == GridVertex(i, j)
    decreases m
  {
    var g := Grid(m - 1, columns);
    var row := GridRow(m - 1, columns);
    assert Grid(m, columns) == g + row;
    GridRowShape(m - 1, columns);
    if i < m - 1 {
      GridAt(m - 1, columns, i, j);
      assert (g + row)[i * columns + j] == g[i * columns + j];
    } else {
      GridLength(m - 1, columns);
      assert i * columns == |g|;
      assert (g + row)[|g| + j] == row[j];
    }
  }

  /** Multiplication distributes over addition. */
  lemma MulAdd(n: int, a: int, b: int)
    ensures n * a + n * b == n * (a + b)
  {
  }

  /** Six indices per sector on each of `stacks - 1` stacks' worth. */
  lemma SixPerCell(n: int, stacks: int)
    ensures n * (6 * stacks - 6) == 6 * n * (stacks - 1)
  {
  }

  /** `i * c + j < m * c` when `i < m` and `j < c`. */
  lemma MulStrict(i: nat, j: nat, m: nat, c: nat)
    requires i < m && j < c
    ensures i * c + j < m * c
  {
    assert (m - i) * c >= c by {
      assert m - i >= 1;
    }
    assert m * c - i * c == (m - i) * c;
  }

  /** The vertex float buffer holds 8 floats for each of the
      (stackCount + 1) * (sectorCount + 1) grid vertices. */
  lemma SphereVertexCount(sectorCount: int, stackCount: int)
    requires sectorCount >= 0 && stackCount >= 0
    ensures |SphereVertices(sectorCount, stackCount)| == (stackCount + 1) * (sectorCount + 1)
    ensures FloatsPerVertex * |SphereVertices(sectorCount, stackCount)|
         == 8 * (stackCount + 1) * (sectorCount + 1)
  {
    GridLength(stackCount + 1, sectorCount + 1);
  }

  /** Index `i * (sectorCount + 1) + j` names the vertex of stack `i`, sector `j`. */
  lemma SphereVertexAt(sectorCount: int, stackCount: int, i: int, j: int)
    requires 0 <= i <= stackCount && 0 <= j <= sectorCount
    ensures i * (sectorCount + 1) + j < |SphereVertices(sectorCount, stackCount)|
    ensures SphereVertices(sectorCount, stackCount)[i * (sectorCount + 1) + j] == GridVertex(i, j)
  {
    GridAt(stackCount + 1, sectorCount + 1, i, j);
  }

  /** How many indices one sector of stack `i` emits: a triangle unless `i`
      is the first stack, and another unless it is the last. */
  function CellLength(i: int, stackCount: int): nat {
    (if i != 0 then 3 else 0) + (if i != stackCount - 1 then 3 else 0)
  }

  lemma {:induction false} StackIndicesLength(i: int, n: nat, sectorCount: int, stackCount: int)
    ensures |StackIndices(i, n, sectorCount, stackCount)| == n * CellLength(i, stackCount)
    decreases n
  {
    if n > 0 {
      StackIndicesLength(i, n - 1, sectorCount, stackCount);
      assert (n - 1) * CellLength(i, stackCount) + CellLength(i, stackCount) == n * CellLength(i, stackCount);
    }
  }

  /** The first and the last stack emit one triangle per sector, every
      middle stack two (a single stack is both first and last: none). */
  lemma StackTriangles(i: int, sectorCount: int, stackCount: int)
    requires 0 <= i < stackCount
    ensures |StackIndices(i, Count(sectorCount), sectorCount, stackCount)|
         == 3 * Count(sectorCount) * (if stackCount == 1 then 0 else if i == 0 || i == stackCount - 1 then 1 else 2)
  {
    StackIndicesLength(i, Count(sectorCount), sectorCount, stackCount);
  }

  lemma {:induction false} StacksIndicesLength(m: nat, sectorCount: int, stackCount: int)
    requires 1 <= stackCount && m <= stackCount
    ensures |StacksIndices(m, sectorCount, stackCount)|
         == Count(sectorCount) * (6 * m - (if m >= 1 then 3 else 0) - (if m == stackCount then 3 else 0))
    decreases m
  {
    if m > 0 {
      StacksIndicesLength(m - 1, sectorCount, stackCount);
      StackIndicesLength(m - 1, Count(sectorCount), sectorCount, stackCount);
      var n := Count(sectorCount);
      var before := 6 * (m - 1) - (if m - 1 >= 1 then 3 else 0);
      var cell := CellLength(m - 1, stackCount);
      assert |StacksIndices(m - 1, sectorCount, stackCount)| == n * before;
      assert |StackIndices(m - 1, n, sectorCount, stackCount)| == n * cell;
      assert StacksIndices(m, sectorCount, stackCount)
          == StacksIndices(m - 1, sectorCount, stackCount) + StackIndices(m - 1, n, sectorCount, stackCount);
      var total := 6 * m - (if m >= 1 then 3 else 0) - (if m == stackCount then 3 else 0);
      assert before + cell == total;
      MulAdd(n, before, cell);
    }
  }

  /** For `stackCount >= 1` the buffer holds `6 * sectorCount * (stackCount - 1)`
      indices; with no stacks or no sectors it is empty. */
  lemma SphereIndexCount(sectorCount: int, stackCount: int)
    ensures stackCount >= 1 ==> |SphereIndices(sectorCount, stackCount)| == 6 * Count(sectorCount) * (stackCount - 1)
    ensures stackCount <= 0 || sectorCount <= 0 ==> SphereIndices(sectorCount, stackCount) == []
  {
    if stackCount >= 1 {
      StacksIndicesLength(stackCount, sectorCount, stackCount);
      SixPerCell(Count(sectorCount), stackCount);
    }
  }

  /** All indices of stacks 0..m-1 name one of the `(stackCount + 1) * (sectorCount + 1)` vertices. */
  lemma {:induction false} StacksIndicesBound(m: nat, sectorCount: int, stackCount: int)
    requires m <= stackCount && sectorCount >= 0
    ensures forall x :: x in StacksIndices(m, sectorCount, stackCount) ==> 0 <= x < (stackCount + 1) * (sectorCount + 1)
    decreases m
  {
    if m > 0 {
      StacksIndicesBound(m - 1, sectorCount, stackCount);
      StackIndicesBound(m - 1, sectorCount, sectorCount, stackCount);
    }
  }

  lemma {:induction false} StackIndicesBound(i: nat, n: nat, sectorCount: int, stackCount: int)
    requires i < stackCount && n <= sectorCount
    ensures forall x :: x in StackIndices(i, n, sectorCount, stackCount) ==> 0 <= x < (stackCount + 1) * (sectorCount + 1)
    decreases n
  {
    if n > 0 {
      StackIndicesBound(i, n - 1, sectorCount, stackCount);
      var j := n - 1;
      var c := sectorCount + 1;
      // the largest index of the cell is (i + 1) * c + j + 1, on stack row i + 1 <= stackCount
      MulStrict(i + 1, j + 1, stackCount + 1, c);
      assert (i + 1) * c == i * c + c;
    }
  }

  /** Every emitted index is below the number of generated vertices. */
  lemma SphereIndexBound(sectorCount: int, stackCount: int)
    ensures forall x :: x in SphereIndices(sectorCount, stackCount) ==> 0 <= x < |SphereVertices(sectorCount, stackCount)|
  {
    if stackCount >= 1 && sectorCount >= 0 {
      StacksIndicesBound(stackCount, sectorCount, stackCount);
      SphereVertexCount(sectorCount, stackCount);
    } else {
      SphereIndexCount(sectorCount, stackCount);
    }
  }

  /** Vertex `v` lies on stack row `r` or `r + 1`. */
  predicate OnStacks(v: int, r: int, sectorCount: int) {
    r * (sectorCount + 1) <= v < (r + 2) * (sectorCount + 1)
  }

  /** The triangle `a, b, c` uses vertices of stack rows `r` and `r + 1` only. */
  predicate TriangleOnStacks(a: int, b: int, c: int, r: int, sectorCount: int) {
    0 <= r && OnStacks(a, r, sectorCount) && OnStacks(b, r, sectorCount) && OnStacks(c, r, sectorCount)
  }

  /** Triangle `t` of `q` (indices `3t`, `3t + 1`, `3t + 2`) uses stack rows `r` and `r + 1` only. */
  predicate TriangleAt(q: seq<int>, t: int, r: int, sectorCount: int) {
    0 <= t && 3 * t + 2 < |q| && TriangleOnStacks(q[3 * t], q[3 * t + 1], q[3 * t + 2], r, sectorCount)
  }

  ghost predicate TriangleSpansTwoStacks(q: seq<int>, t: int, sectorCount: int) {
    exists r :: TriangleAt(q, t, r, sectorCount)
  }

  /** A buffer made of whole triangles, each spanning two neighbouring stack rows. */
  ghost predicate Triangles(q: seq<int>, sectorCount: int) {
    && |q| % 3 == 0
    && forall t :: 0 <= t < |q| / 3 ==> TriangleSpansTwoStacks(q, t, sectorCount)
  }

  lemma TrianglesAppend(p: seq<int>, q: seq<int>, sectorCount: int)
    requires Triangles(p, sectorCount) && Triangles(q, sectorCount)
    ensures Triangles(p + q, sectorCount)
  {
    var pq := p + q;
    assert |pq| / 3 == |p| / 3 + |q| / 3;
    forall t | 0 <= t < |pq| / 3
      ensures TriangleSpansTwoStacks(pq, t, sectorCount)
    {
      if t < |p| / 3 {
        assert TriangleSpansTwoStacks(p, t, sectorCount);
        var r :| TriangleAt(p, t, r, sectorCount);
        assert pq[3 * t] == p[3 * t] && pq[3 * t + 1] == p[3 * t + 1] && pq[3 * t + 2] == p[3 * t + 2];
        assert TriangleAt(pq, t, r, sectorCount);
      } else {
        var u := t - |p| / 3;
        assert 0 <= u < |q| / 3;
        assert TriangleSpansTwoStacks(q, u, sectorCount);
        var r :| TriangleAt(q, u, r, sectorCount);
        assert 3 * t == |p| + 3 * u;
        assert pq[3 * t] == q[3 * u] && pq[3 * t + 1] == q[3 * u + 1] && pq[3 * t + 2] == q[3 * u + 2];
        assert TriangleAt(pq, t, r, sectorCount);
      }
    }
  }

  /** A single triangle on stack rows `r` and `r + 1`. */
  lemma OneTriangle(a: int, b: int, c: int, r: int, sectorCount: int)
    requires TriangleOnStacks(a, b, c, r, sectorCount)
    ensures Triangles([a, b, c], sectorCount)
  {
    var q := [a, b, c];
    assert TriangleAt(q, 0, r, sectorCount);
    assert TriangleSpansTwoStacks(q, 0, sectorCount);
  }

  lemma CellTriangles(i: nat, j: nat, sectorCount: int, stackCount: int)
    requires j < sectorCount
    ensures Triangles(Cell(i, j, sectorCount, stackCount), sectorCount)
  {
    var c := sectorCount + 1;
    var k1 := i * c + j;
    var k2 := k1 + c;
    assert (i + 2) * c == i * c + 2 * c;
    assert TriangleOnStacks(k1, k2, k1 + 1, i, sectorCount);
    assert TriangleOnStacks(k1 + 1, k2, k2 + 1, i, sectorCount);
    var upper: seq<int> := if i != 0 then [k1, k2, k1 + 1] else [];
    var lower: seq<int> := if i != stackCount - 1 then [k1 + 1, k2, k2 + 1] else [];
    if i != 0 { OneTriangle(k1, k2, k1 + 1, i, sectorCount); }
    if i != stackCount - 1 { OneTriangle(k1 + 1, k2, k2 + 1, i, sectorCount); }
    TrianglesAppend(upper, lower, sectorCount);
  }

  lemma {:induction false} StackIndicesTriangles(i: nat, n: nat, sectorCount: int, stackCount: int)
    requires n <= Count(sectorCount)
    ensures Triangles(StackIndices(i, n, sectorCount, stackCount), sectorCount)
    decreases n
  {
    if n > 0 {
      StackIndicesTriangles(i, n - 1, sectorCount, stackCount);
      CellTriangles(i, n - 1, sectorCount, stackCount);
      TrianglesAppend(StackIndices(i, n - 1, sectorCount, stackCount), Cell(i, n - 1, sectorCount, stackCount), sectorCount);
    }
  }

  lemma {:induction false} StacksIndicesTriangles(m: nat, sectorCount: int, stackCount: int)
    ensures Triangles(StacksIndices(m, sectorCount, stackCount), sectorCount)
    decreases m
  {
    if m > 0 {
      StacksIndicesTriangles(m - 1, sectorCount, stackCount);
      StackIndicesTriangles(m - 1, Count(sectorCount), sectorCount, stackCount);
      TrianglesAppend(StacksIndices(m - 1, sectorCount, stackCount),
                      StackIndices(m - 1, Count(sectorCount), sectorCount, stackCount), sectorCount);
    }
  }

  /** Indices come in whole triangles (the length is a multiple of 3), and
      every triangle joins vertices of two neighbouring stack rows. */
  lemma SphereTriangles(sectorCount: int, stackCount: int)
    ensures |SphereIndices(sectorCount, stackCount)| % 3 == 0
    ensures Triangles(SphereIndices(sectorCount, stackCount), sectorCount)
  {
    StacksIndicesTriangles(Count(stackCount), sectorCount, stackCount);
  }

  /** The format `loadTexture` picks stores exactly the image's channels when
      the count is 1, 3 or 4, and each format is picked for its own count. */
  lemma TextureFormatRoundTrip(f: TextureFormat, nrComponents: int)
    ensures FormatFor(Channels(f)) == f
    ensures Channels(FormatFor(nrComponents)) == nrComponents <==> nrComponents in {1, 3, 4}
  {
  }
}
