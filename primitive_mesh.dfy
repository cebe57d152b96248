/** Topology of the primitive meshes: the constant quad, the UV sphere and
    the flat ring ("cylinder").

    Positions, normals and texture coordinates are floating-point geometry and
    are not modelled.  A vertex is identified by a structural label instead (a
    sphere vertex by its grid cell, a cylinder vertex by its ring point and
    normal), and a vertex array is the sequence of `Float`s it holds: eight per
    vertex, each naming the vertex and the attribute it carries.  What is
    modelled exactly is everything integer: clamps, counts, the grid numbering,
    pole skipping, segment order and index arrays. */
module PrimitiveMesh {

  // ---------------------------------------------------------------------------
  // Vertex layout shared by every generator: x, y, z, nx, ny, nz, u, v

  datatype Attribute = PositionX | PositionY | PositionZ | NormalX | NormalY | NormalZ | TexU | TexV

  const FloatsPerVertex: nat := 8

  /** One entry of a vertex array: `attribute` of `vertex`. */
  datatype Float<V> = Float(vertex: V, attribute: Attribute)

  function AttributeAt(j: nat): Attribute
    requires j < FloatsPerVertex
  {
    [PositionX, PositionY, PositionZ, NormalX, NormalY, NormalZ, TexU, TexV][j]
  }

  /** The eight floats one vertex contributes, in layout order. */
  function Components<V>(v: V): seq<Float<V>> {
    [Float(v, PositionX), Float(v, PositionY), Float(v, PositionZ),
     Float(v, NormalX), Float(v, NormalY), Float(v, NormalZ),
     Float(v, TexU), Float(v, TexV)]
  }

  /** The vertex array holding `vs` in order. */
  function Flatten<V>(vs: seq<V>): seq<Float<V>>
    decreases |vs|
  {
    if vs == [] then [] else Flatten(vs[..|vs| - 1]) + Components(vs[|vs| - 1])
  }

  lemma FlattenSnoc<V>(vs: seq<V>, v: V)
    ensures Flatten(vs + [v]) == Flatten(vs) + Components(v)
  {
    assert (vs + [v])[..|vs + [v]| - 1] == vs;
  }

  lemma {:induction false} FlattenAppend<V>(a: seq<V>, b: seq<V>)
    ensures Flatten(a + b) == Flatten(a) + Flatten(b)
    decreases |b|
  {
    if b == [] {
      assert a + b == a;
    } else {
      var b' := b[..|b| - 1];
      assert a + b == (a + b') + [b[|b| - 1]];
      assert b == b' + [b[|b| - 1]];
      FlattenSnoc(a + b', b[|b| - 1]);
      FlattenSnoc(b', b[|b| - 1]);
      FlattenAppend(a, b');
    }
  }

  /** Every vertex contributes exactly eight floats, and float `8k + j` is
      attribute `j` of vertex `k`. */
  lemma {:induction false} FlattenLayout<V>(vs: seq<V>)
    ensures |Flatten(vs)| == FloatsPerVertex * |vs|
    ensures forall k, j :: 0 <= k < |vs| && 0 <= j < FloatsPerVertex ==>
      Flatten(vs)[FloatsPerVertex * k + j] == Float(vs[k], AttributeAt(j))
    decreases |vs|
  {
    if vs != [] {
      var init := vs[..|vs| - 1];
      FlattenLayout(init);
      assert Flatten(vs) == Flatten(init) + Components(vs[|vs| - 1]);
      forall k, j | 0 <= k < |vs| && 0 <= j < FloatsPerVertex
        ensures Flatten(vs)[FloatsPerVertex * k + j] == Float(vs[k], AttributeAt(j))
      {
        if k < |init| {
          assert vs[k] == init[k];
        }
      }
    }
  }

  // ---------------------------------------------------------------------------
  // Quad (PrimitiveMesh.js:3-15)

  /** Raw float and index arrays, as the quad constant stores them. */
  datatype IndexedMesh = IndexedMesh(vertices: seq<real>, indices: seq<nat>)

  /** `quad`: four vertices of eight floats and two triangles whose corners
      all name one of those vertices. */
  function Quad(): (quad: IndexedMesh)
    ensures |quad.vertices| == 4 * FloatsPerVertex
    ensures |quad.indices| == 2 * 3
    ensures forall i :: 0 <= i < |quad.indices| ==> quad.indices[i] < |quad.vertices| / FloatsPerVertex
  {
    IndexedMesh(
      [ -0.5,  0.5, 0.0, 0.0, 0.0, 1.0, 0.0, 0.0,
         0.5,  0.5, 0.0, 0.0, 0.0, 1.0, 1.0, 0.0,
         0.5, -0.5, 0.0, 0.0, 0.0, 1.0, 1.0, 1.0,
        -0.5, -0.5, 0.0, 0.0, 0.0, 1.0, 0.0, 1.0 ],
      [ 0, 1, 2,
        0, 2, 3 ])
  }

  // ---------------------------------------------------------------------------
  // Sphere (PrimitiveMesh.js:17-84)

  /** Which half-texel shift the uv of a grid row gets at a pole. */
  datatype PoleOffset = NoOffset | NorthPoleOffset | SouthPoleOffset

  /** A sphere vertex: latitude row `iy`, longitude column `ix`. */
  datatype GridVertex = GridVertex(iy: nat, ix: nat, uOffset: PoleOffset)

  datatype Triangle = Triangle(a: nat, b: nat, c: nat)

  datatype SphereMesh = SphereMesh(vertices: seq<Float<GridVertex>>, indices: seq<nat>)

  function Floor(x: real): int {
    x.Floor
  }

  /** `Math.max(3, Math.floor(widthSegments))`. */
  function WidthSegments(widthSegments: real): (w: nat)
    ensures w >= 3
    ensures Floor(widthSegments) >= 3 ==> w == Floor(widthSegments)
    ensures Floor(widthSegments) < 3 ==> w == 3
  {
    if Floor(widthSegments) > 3 then Floor(widthSegments) else 3
  }

  /** `Math.max(2, Math.floor(heightSegments))`. */
  function HeightSegments(heightSegments: real): (h: nat)
    ensures h >= 2
    ensures Floor(heightSegments) >= 2 ==> h == Floor(heightSegments)
    ensures Floor(heightSegments) < 2 ==> h == 2
  {
    if Floor(heightSegments) > 2 then Floor(heightSegments) else 2
  }

  /** The uv offset of row `iy`: the first row when the sphere starts at
      theta 0, the last row when it ends at pi. */
  function PoleOffsetOf(iy: nat, H: nat, thetaStart: real, thetaEndIsPi: bool): PoleOffset {
    if iy == 0 && thetaStart == 0.0 then NorthPoleOffset
    else if iy == H && thetaEndIsPi then SouthPoleOffset
    else NoOffset
  }

  /** The number of the first vertex of row iy: every row before it holds W + 1. */
  function RowStart(W: nat, iy: nat): nat
    decreases iy
  {
    if iy == 0 then 0 else RowStart(W, iy - 1) + (W + 1)
  }

  /** The number `grid[iy][ix]` the generator's running counter gives vertex (iy, ix). */
  function GridIndex(W: nat, iy: nat, ix: nat): nat {
    RowStart(W, iy) + ix
  }

  /** The counter numbering is the closed form iy·(W+1)+ix. */
  lemma {:induction false} RowStartFormula(W: nat, iy: nat)
    ensures RowStart(W, iy) == iy * (W + 1)
    decreases iy
  {
    if iy > 0 {
      RowStartFormula(W, iy - 1);
      MulDistributes(W + 1, iy - 1, 1);
    }
  }

  lemma {:induction false} RowStartMonotone(W: nat, i: nat, j: nat)
    requires i < j
    ensures RowStart(W, i) + (W + 1) <= RowStart(W, j)
    decreases j
  {
    if i < j - 1 {
      RowStartMonotone(W, i, j - 1);
    }
  }

  /** The numbers `count` consecutive vertices get from the counter, starting at `first`. */
  function NumberRow(first: nat, count: nat): seq<nat> {
    seq(count, c requires 0 <= c => first + c)
  }

  /** The generator's `grid` after its first n rows. */
  function GridNumbers(W: nat, n: nat): seq<seq<nat>>
    decreases n
  {
    if n == 0 then [] else GridNumbers(W, n - 1) + [NumberRow(RowStart(W, n - 1), W + 1)]
  }

  /** `grid[r][c]` is the number of vertex (r, c). */
  lemma {:induction false} GridNumbersAt(W: nat, n: nat, r: nat, c: nat)
    requires r < n && c <= W
    ensures |GridNumbers(W, n)| == n && |GridNumbers(W, n)[r]| == W + 1
    ensures GridNumbers(W, n)[r][c] == GridIndex(W, r, c)
    decreases n
  {
    if r < n - 1 {
      GridNumbersAt(W, n - 1, r, c);
    } else if n > 1 {
      GridNumbersAt(W, n - 1, 0, 0);
    }
  }

  function GridRow(W: nat, iy: nat, offset: PoleOffset): seq<GridVertex> {
    seq(W + 1, ix requires 0 <= ix => GridVertex(iy, ix, offset))
  }

  /** The first `n` rows of the vertex grid, row after row. */
  function GridRows(W: nat, H: nat, n: nat, thetaStart: real, thetaEndIsPi: bool): seq<GridVertex>
    decreases n
  {
    if n == 0 then []
    else GridRows(W, H, n - 1, thetaStart, thetaEndIsPi) + GridRow(W, n - 1, PoleOffsetOf(n - 1, H, thetaStart, thetaEndIsPi))
  }

  lemma {:induction false} GridRowsLength(W: nat, H: nat, n: nat, thetaStart: real, thetaEndIsPi: bool)
    ensures |GridRows(W, H, n, thetaStart, thetaEndIsPi)| == RowStart(W, n)
    decreases n
  {
    if n > 0 {
      GridRowsLength(W, H, n - 1, thetaStart, thetaEndIsPi);
    }
  }

  /** Vertex number `iy·(W+1)+ix` of the grid is the one of row iy, column ix. */
  lemma {:induction false} GridRowsAt(W: nat, H: nat, n: nat, thetaStart: real, thetaEndIsPi: bool, iy: nat, ix: nat)
    requires iy < n && ix <= W
    ensures GridIndex(W, iy, ix) < |GridRows(W, H, n, thetaStart, thetaEndIsPi)|
    ensures GridRows(W, H, n, thetaStart, thetaEndIsPi)[GridIndex(W, iy, ix)]
            == GridVertex(iy, ix, PoleOffsetOf(iy, H, thetaStart, thetaEndIsPi))
    decreases n
  {
    GridRowsLength(W, H, n - 1, thetaStart, thetaEndIsPi);
    GridRowsLength(W, H, n, thetaStart, thetaEndIsPi);
    if iy < n - 1 {
      GridRowsAt(W, H, n - 1, thetaStart, thetaEndIsPi, iy, ix);
    }
  }

  /** The triangles emitted for grid cell (iy, ix): (a, b, d) unless the cell
      is on the first row of a sphere that starts at the pole, (b, c, d)
      unless it is on the last row of one that ends at the pole. */
  function CellTriangles(W: nat, H: nat, iy: nat, ix: nat, thetaStart: real, thetaEndIsPi: bool): seq<Triangle> {
    var a := GridIndex(W, iy, ix + 1);
    var b := GridIndex(W, iy, ix);
    var c := GridIndex(W, iy + 1, ix);
    var d := GridIndex(W, iy + 1, ix + 1);
    (if iy != 0 || thetaStart > 0.0 then [Triangle(a, b, d)] else [])
      + (if iy != H - 1 || !thetaEndIsPi then [Triangle(b, c, d)] else [])
  }

  /** The triangles of the first `n` cells of row `iy`. */
  function RowTriangles(W: nat, H: nat, iy: nat, n: nat, thetaStart: real, thetaEndIsPi: bool): seq<Triangle>
    decreases n
  {
    if n == 0 then []
    else RowTriangles(W, H, iy, n - 1, thetaStart, thetaEndIsPi) + CellTriangles(W, H, iy, n - 1, thetaStart, thetaEndIsPi)
  }

  /** The triangles of the first `m` rows of cells. */
  function SphereTriangles(W: nat, H: nat, m: nat, thetaStart: real, thetaEndIsPi: bool): seq<Triangle>
    decreases m
  {
    if m == 0 then []
    else SphereTriangles(W, H, m - 1, thetaStart, thetaEndIsPi) + RowTriangles(W, H, m - 1, W, thetaStart, thetaEndIsPi)
  }

  /** The flat index array listing the corners of `ts` in order. */
  function TriangleIndices(ts: seq<Triangle>): seq<nat>
    decreases |ts|
  {
    if ts == [] then []
    else
      var t := ts[|ts| - 1];
      TriangleIndices(ts[..|ts| - 1]) + [t.a, t.b, t.c]
  }

  lemma {:induction false} TriangleIndicesAppend(a: seq<Triangle>, b: seq<Triangle>)
    ensures TriangleIndices(a + b) == TriangleIndices(a) + TriangleIndices(b)
    decreases |b|
  {
    if b == [] {
      assert a + b == a;
    } else {
      var b' := b[..|b| - 1];
      assert (a + b)[..|a + b| - 1] == a + b';
      TriangleIndicesAppend(a, b');
    }
  }

  lemma {:induction false} TriangleIndicesLength(ts: seq<Triangle>)
    ensures |TriangleIndices(ts)| == 3 * |ts|
    decreases |ts|
  {
    if ts != [] {
      TriangleIndicesLength(ts[..|ts| - 1]);
    }
  }

  method GenerateSphereMesh(widthSegments: real, heightSegments: real, thetaStart: real, thetaEndIsPi: bool)
    returns (mesh: SphereMesh)
    ensures var W := WidthSegments(widthSegments);
            var H := HeightSegments(heightSegments);
            && mesh.vertices == Flatten(GridRows(W, H, H + 1, thetaStart, thetaEndIsPi))
            && mesh.indices == TriangleIndices(SphereTriangles(W, H, H, thetaStart, thetaEndIsPi))
  {
    var W := WidthSegments(widthSegments);
    var H := HeightSegments(heightSegments);
    var vertices, grid := SphereVertices(W, H, thetaStart, thetaEndIsPi);
    var indices := SphereIndices(W, H, grid, thetaStart, thetaEndIsPi);
    mesh := SphereMesh(vertices, indices);
  }

  /** The vertex pass: rows 0..H of W + 1 vertices each, numbered by a running
      counter into `grid`. */
  method SphereVertices(W: nat, H: nat, thetaStart: real, thetaEndIsPi: bool)
    returns (vertices: seq<Float<GridVertex>>, grid: seq<seq<nat>>)
    ensures vertices == Flatten(GridRows(W, H, H + 1, thetaStart, thetaEndIsPi))
    ensures grid == GridNumbers(W, H + 1)
  {
    var index := 0;
    grid := [];
    vertices := [];
    var iy := 0;
    while iy <= H
      invariant 0 <= iy <= H + 1
      invariant index == RowStart(W, iy)
      invariant grid == GridNumbers(W, iy)
      invariant vertices == Flatten(GridRows(W, H, iy, thetaStart, thetaEndIsPi))
    {
      var uOffset := NoOffset;
      if iy == 0 && thetaStart == 0.0 {
        uOffset := NorthPoleOffset;
      } else if iy == H && thetaEndIsPi {
        uOffset := SouthPoleOffset;
      }
      assert uOffset == PoleOffsetOf(iy, H, thetaStart, thetaEndIsPi);
      var verticesRow;
      vertices, verticesRow, index := PushSphereRow(W, iy, uOffset, vertices, index);
      SphereRowsStep(W, H, iy, thetaStart, thetaEndIsPi);
      grid := grid + [verticesRow];
      iy := iy + 1;
    }
    assert iy == H + 1;
  }

  /** The index pass: the triangles of every cell, row by row. */
  method SphereIndices(W: nat, H: nat, grid: seq<seq<nat>>, thetaStart: real, thetaEndIsPi: bool)
    returns (indices: seq<nat>)
    requires grid == GridNumbers(W, H + 1)
    ensures indices == TriangleIndices(SphereTriangles(W, H, H, thetaStart, thetaEndIsPi))
  {
    indices := [];
    var iy := 0;
    while iy < H
      invariant 0 <= iy <= H
      invariant indices == TriangleIndices(SphereTriangles(W, H, iy, thetaStart, thetaEndIsPi))
    {
      indices := PushRowIndices(W, H, iy, grid, indices, thetaStart, thetaEndIsPi);
      SphereTrianglesStep(W, H, iy, thetaStart, thetaEndIsPi);
      iy := iy + 1;
    }
  }

  /** One more row of the vertex pass: its numbers and its floats follow the earlier rows'. */
  lemma SphereRowsStep(W: nat, H: nat, iy: nat, thetaStart: real, thetaEndIsPi: bool)
    ensures RowStart(W, iy + 1) == RowStart(W, iy) + (W + 1)
    ensures GridNumbers(W, iy + 1) == GridNumbers(W, iy) + [NumberRow(RowStart(W, iy), W + 1)]
    ensures Flatten(GridRows(W, H, iy + 1, thetaStart, thetaEndIsPi))
            == Flatten(GridRows(W, H, iy, thetaStart, thetaEndIsPi))
               + Flatten(GridRow(W, iy, PoleOffsetOf(iy, H, thetaStart, thetaEndIsPi)))
  {
    FlattenAppend(GridRows(W, H, iy, thetaStart, thetaEndIsPi), GridRow(W, iy, PoleOffsetOf(iy, H, thetaStart, thetaEndIsPi)));
  }

  /** One more row of the index pass adds that row's corners. */
  lemma SphereTrianglesStep(W: nat, H: nat, iy: nat, thetaStart: real, thetaEndIsPi: bool)
    ensures TriangleIndices(SphereTriangles(W, H, iy + 1, thetaStart, thetaEndIsPi))
            == TriangleIndices(SphereTriangles(W, H, iy, thetaStart, thetaEndIsPi))
               + TriangleIndices(RowTriangles(W, H, iy, W, thetaStart, thetaEndIsPi))
  {
    TriangleIndicesAppend(SphereTriangles(W, H, iy, thetaStart, thetaEndIsPi),
                          RowTriangles(W, H, iy, W, thetaStart, thetaEndIsPi));
  }

  /** The inner loop of the vertex pass: pushes the eight floats of each vertex
      of row iy onto `vertices` and numbers the row's vertices from `index` on. */
  method PushSphereRow(W: nat, iy: nat, uOffset: PoleOffset, vertices: seq<Float<GridVertex>>, index: nat)
    returns (vertices': seq<Float<GridVertex>>, verticesRow: seq<nat>, index': nat)
    ensures vertices' == vertices + Flatten(GridRow(W, iy, uOffset))
    ensures verticesRow == NumberRow(index, W + 1)
    ensures index' == index + (W + 1)
  {
    ghost var row := GridRow(W, iy, uOffset);
    vertices' := vertices;
    verticesRow := [];
    index' := index;
    var ix := 0;
    while ix <= W
      invariant 0 <= ix <= W + 1
      invariant index' == index + ix
      invariant |verticesRow| == ix
      invariant forall c :: 0 <= c < ix ==> verticesRow[c] == index + c
      invariant vertices' == vertices + Flatten(row[..ix])
    {
      var v := GridVertex(iy, ix, uOffset);
      ghost var prev := vertices';
      vertices' := vertices' + [Float(v, PositionX), Float(v, PositionY), Float(v, PositionZ)];
      vertices' := vertices' + [Float(v, NormalX), Float(v, NormalY), Float(v, NormalZ)];
      vertices' := vertices' + [Float(v, TexU), Float(v, TexV)];
      assert vertices' == prev + Components(v);
      FlattenRowStep(vertices, row, ix);
      verticesRow := verticesRow + [index'];
      index' := index' + 1;
      ix := ix + 1;
    }
    assert row[..ix] == row;
    assert verticesRow == NumberRow(index, W + 1);
  }

  /** The inner loop of the index pass: pushes the corners of the triangles of
      every cell of row iy, read from the numbering `grid`. */
  method PushRowIndices(W: nat, H: nat, iy: nat, grid: seq<seq<nat>>, indices: seq<nat>,
                        thetaStart: real, thetaEndIsPi: bool)
    returns (indices': seq<nat>)
    requires iy < H && grid == GridNumbers(W, H + 1)
    ensures indices' == indices + TriangleIndices(RowTriangles(W, H, iy, W, thetaStart, thetaEndIsPi))
  {
    indices' := indices;
    var ix := 0;
    while ix < W
      invariant 0 <= ix <= W
      invariant indices' == indices + TriangleIndices(RowTriangles(W, H, iy, ix, thetaStart, thetaEndIsPi))
    {
      GridCell(W, H + 1, iy, ix);
      var a := grid[iy][ix + 1];
      var b := grid[iy][ix];
      var c := grid[iy + 1][ix];
      var d := grid[iy + 1][ix + 1];
      ghost var done := TriangleIndices(RowTriangles(W, H, iy, ix, thetaStart, thetaEndIsPi));
      ghost var first: seq<nat> := if iy != 0 || thetaStart > 0.0 then [a, b, d] else [];
      ghost var second: seq<nat> := if iy != H - 1 || !thetaEndIsPi then [b, c, d] else [];
      if iy != 0 || thetaStart > 0.0 {
        indices' := indices' + [a, b, d];
      }
      if iy != H - 1 || !thetaEndIsPi {
        indices' := indices' + [b, c, d];
      }
      assert indices' == indices + done + first + second;
      RowIndicesStep(W, H, iy, ix, thetaStart, thetaEndIsPi);
      AppendAssociates(indices + done, first, second);
      AppendAssociates(indices, done, first + second);
      ix := ix + 1;
    }
  }

  /** The four corners of cell (iy, ix), as `grid` numbers them. */
  lemma GridCell(W: nat, n: nat, iy: nat, ix: nat)
    requires iy + 1 < n && ix < W
    ensures |GridNumbers(W, n)| == n && |GridNumbers(W, n)[iy]| == W + 1 && |GridNumbers(W, n)[iy + 1]| == W + 1
    ensures GridNumbers(W, n)[iy][ix] == GridIndex(W, iy, ix)
    ensures GridNumbers(W, n)[iy][ix + 1] == GridIndex(W, iy, ix + 1)
    ensures GridNumbers(W, n)[iy + 1][ix] == GridIndex(W, iy + 1, ix)
    ensures GridNumbers(W, n)[iy + 1][ix + 1] == GridIndex(W, iy + 1, ix + 1)
  {
    GridNumbersAt(W, n, iy, ix);
    GridNumbersAt(W, n, iy, ix + 1);
    GridNumbersAt(W, n, iy + 1, ix);
    GridNumbersAt(W, n, iy + 1, ix + 1);
  }

  /** One more cell of a row adds that cell's corners, in push order. */
  lemma RowIndicesStep(W: nat, H: nat, iy: nat, ix: nat, thetaStart: real, thetaEndIsPi: bool)
    ensures TriangleIndices(RowTriangles(W, H, iy, ix + 1, thetaStart, thetaEndIsPi))
            == TriangleIndices(RowTriangles(W, H, iy, ix, thetaStart, thetaEndIsPi))
               + ((if iy != 0 || thetaStart > 0.0
                   then [GridIndex(W, iy, ix + 1), GridIndex(W, iy, ix), GridIndex(W, iy + 1, ix + 1)] else [])
                  + (if iy != H - 1 || !thetaEndIsPi
                     then [GridIndex(W, iy, ix), GridIndex(W, iy + 1, ix), GridIndex(W, iy + 1, ix + 1)] else []))
  {
    CellIndices(W, H, iy, ix, thetaStart, thetaEndIsPi);
    TriangleIndicesAppend(RowTriangles(W, H, iy, ix, thetaStart, thetaEndIsPi),
                          CellTriangles(W, H, iy, ix, thetaStart, thetaEndIsPi));
  }

  lemma AppendAssociates<T>(a: seq<T>, b: seq<T>, c: seq<T>)
    ensures a + b + c == a + (b + c)
  {
  }

  /** The corners one cell contributes, as the two guarded pushes write them. */
  lemma CellIndices(W: nat, H: nat, iy: nat, ix: nat, thetaStart: real, thetaEndIsPi: bool)
    ensures TriangleIndices(CellTriangles(W, H, iy, ix, thetaStart, thetaEndIsPi))
            == (if iy != 0 || thetaStart > 0.0
                then [GridIndex(W, iy, ix + 1), GridIndex(W, iy, ix), GridIndex(W, iy + 1, ix + 1)] else [])
               + (if iy != H - 1 || !thetaEndIsPi
                  then [GridIndex(W, iy, ix), GridIndex(W, iy + 1, ix), GridIndex(W, iy + 1, ix + 1)] else [])
  {
    var a := GridIndex(W, iy, ix + 1);
    var b := GridIndex(W, iy, ix);
    var c := GridIndex(W, iy + 1, ix);
    var d := GridIndex(W, iy + 1, ix + 1);
    var first := if iy != 0 || thetaStart > 0.0 then [Triangle(a, b, d)] else [];
    var second := if iy != H - 1 || !thetaEndIsPi then [Triangle(b, c, d)] else [];
    assert CellTriangles(W, H, iy, ix, thetaStart, thetaEndIsPi) == first + second;
    assert TriangleIndices(first) == if first == [] then [] else [a, b, d];
    assert TriangleIndices(second) == if second == [] then [] else [b, c, d];
    TriangleIndicesAppend(first, second);
  }

  lemma FlattenRowStep<V>(prefix: seq<Float<V>>, row: seq<V>, ix: nat)
    requires ix < |row|
    ensures prefix + Flatten(row[..ix]) + Components(row[ix]) == prefix + Flatten(row[..ix + 1])
  {
    assert row[..ix + 1] == row[..ix] + [row[ix]];
    FlattenSnoc(row[..ix], row[ix]);
  }

  /** The sphere emits (W+1)·(H+1) vertices of eight floats, and float
      `8·(iy·(W+1)+ix) + j` is attribute j of grid vertex (iy, ix). */
  lemma SphereVertexLayout(W: nat, H: nat, thetaStart: real, thetaEndIsPi: bool, iy: nat, ix: nat, j: nat)
    requires iy <= H && ix <= W && j < FloatsPerVertex
    ensures |Flatten(GridRows(W, H, H + 1, thetaStart, thetaEndIsPi))| == FloatsPerVertex * ((W + 1) * (H + 1))
    ensures Flatten(GridRows(W, H, H + 1, thetaStart, thetaEndIsPi))[FloatsPerVertex * (iy * (W + 1) + ix) + j]
            == Float(GridVertex(iy, ix, PoleOffsetOf(iy, H, thetaStart, thetaEndIsPi)), AttributeAt(j))
  {
    var rows := GridRows(W, H, H + 1, thetaStart, thetaEndIsPi);
    GridRowsLength(W, H, H + 1, thetaStart, thetaEndIsPi);
    GridRowsAt(W, H, H + 1, thetaStart, thetaEndIsPi, iy, ix);
    FlattenLayout(rows);
    RowStartFormula(W, H + 1);
    RowStartFormula(W, iy);
    MulCommutes(H + 1, W + 1);
  }

  /** Every corner of a cell in rows 0..H-1 names one of the (W+1)·(H+1) vertices. */
  lemma CellTrianglesBounded(W: nat, H: nat, iy: nat, ix: nat, thetaStart: real, thetaEndIsPi: bool)
    requires iy < H && ix < W
    ensures forall t :: t in CellTriangles(W, H, iy, ix, thetaStart, thetaEndIsPi) ==>
      t.a < RowStart(W, H + 1) && t.b < RowStart(W, H + 1) && t.c < RowStart(W, H + 1)
  {
    RowStartMonotone(W, iy + 1, H + 1);
  }

  lemma MulDistributes(x: nat, y: nat, z: nat)
    ensures x * y + x * z == x * (y + z)
  {
  }

  lemma MulAssociates(x: nat, y: nat, z: nat)
    ensures x * y * z == x * (y * z) == y * (x * z)
  {
  }

  lemma MulCommutes(x: nat, y: nat)
    ensures x * y == y * x
  {
  }

  lemma {:induction false} SphereTrianglesBounded(W: nat, H: nat, m: nat, thetaStart: real, thetaEndIsPi: bool)
    requires m <= H
    ensures forall t :: t in SphereTriangles(W, H, m, thetaStart, thetaEndIsPi) ==>
      t.a < RowStart(W, H + 1) && t.b < RowStart(W, H + 1) && t.c < RowStart(W, H + 1)
    decreases m
  {
    if m > 0 {
      SphereTrianglesBounded(W, H, m - 1, thetaStart, thetaEndIsPi);
      RowTrianglesBounded(W, H, m - 1, W, thetaStart, thetaEndIsPi);
    }
  }

  lemma {:induction false} RowTrianglesBounded(W: nat, H: nat, iy: nat, n: nat, thetaStart: real, thetaEndIsPi: bool)
    requires iy < H && n <= W
    ensures forall t :: t in RowTriangles(W, H, iy, n, thetaStart, thetaEndIsPi) ==>
      t.a < RowStart(W, H + 1) && t.b < RowStart(W, H + 1) && t.c < RowStart(W, H + 1)
    decreases n
  {
    if n > 0 {
      RowTrianglesBounded(W, H, iy, n - 1, thetaStart, thetaEndIsPi);
      CellTrianglesBounded(W, H, iy, n - 1, thetaStart, thetaEndIsPi);
    }
  }

  lemma {:induction false} TriangleIndicesBounded(ts: seq<Triangle>, bound: nat)
    requires forall t :: t in ts ==> t.a < bound && t.b < bound && t.c < bound
    ensures forall i :: 0 <= i < |TriangleIndices(ts)| ==> TriangleIndices(ts)[i] < bound
    decreases |ts|
  {
    if ts != [] {
      TriangleIndicesBounded(ts[..|ts| - 1], bound);
      assert ts[|ts| - 1] in ts;
    }
  }

  /** Every entry of the sphere's index array is less than (W+1)·(H+1). */
  lemma SphereIndicesBounded(W: nat, H: nat, thetaStart: real, thetaEndIsPi: bool)
    ensures var indices := TriangleIndices(SphereTriangles(W, H, H, thetaStart, thetaEndIsPi));
      forall i :: 0 <= i < |indices| ==> indices[i] < (W + 1) * (H + 1)
  {
    SphereTrianglesBounded(W, H, H, thetaStart, thetaEndIsPi);
    TriangleIndicesBounded(SphereTriangles(W, H, H, thetaStart, thetaEndIsPi), RowStart(W, H + 1));
    RowStartFormula(W, H + 1);
    MulCommutes(H + 1, W + 1);
  }

  /** How many triangles each cell of row iy emits. */
  function CellTriangleCount(H: nat, iy: nat, thetaStart: real, thetaEndIsPi: bool): nat {
    (if iy != 0 || thetaStart > 0.0 then 1 else 0) + (if iy != H - 1 || !thetaEndIsPi then 1 else 0)
  }

  /** Triangles per column over the first m rows. */
  function RowsTriangleCount(H: nat, m: nat, thetaStart: real, thetaEndIsPi: bool): nat
    decreases m
  {
    if m == 0 then 0 else RowsTriangleCount(H, m - 1, thetaStart, thetaEndIsPi) + CellTriangleCount(H, m - 1, thetaStart, thetaEndIsPi)
  }

  lemma {:induction false} RowTrianglesLength(W: nat, H: nat, iy: nat, n: nat, thetaStart: real, thetaEndIsPi: bool)
    ensures |RowTriangles(W, H, iy, n, thetaStart, thetaEndIsPi)| == n * CellTriangleCount(H, iy, thetaStart, thetaEndIsPi)
    decreases n
  {
    if n > 0 {
      RowTrianglesLength(W, H, iy, n - 1, thetaStart, thetaEndIsPi);
      var k := CellTriangleCount(H, iy, thetaStart, thetaEndIsPi);
      assert (n - 1) * k + k == n * k;
    }
  }

  lemma {:induction false} SphereTrianglesLength(W: nat, H: nat, m: nat, thetaStart: real, thetaEndIsPi: bool)
    ensures |SphereTriangles(W, H, m, thetaStart, thetaEndIsPi)| == W * RowsTriangleCount(H, m, thetaStart, thetaEndIsPi)
    decreases m
  {
    if m > 0 {
      SphereTrianglesLength(W, H, m - 1, thetaStart, thetaEndIsPi);
      RowTrianglesLength(W, H, m - 1, W, thetaStart, thetaEndIsPi);
      var st := SphereTriangles(W, H, m - 1, thetaStart, thetaEndIsPi);
      var rt := RowTriangles(W, H, m - 1, W, thetaStart, thetaEndIsPi);
      var prev := RowsTriangleCount(H, m - 1, thetaStart, thetaEndIsPi);
      var k := CellTriangleCount(H, m - 1, thetaStart, thetaEndIsPi);
      assert |SphereTriangles(W, H, m, thetaStart, thetaEndIsPi)| == |st| + |rt|;
      assert RowsTriangleCount(H, m, thetaStart, thetaEndIsPi) == prev + k;
      MulDistributes(W, prev, k);
    }
  }

  /** Two triangles per cell, minus the first row's (a, b, d) when the sphere
      starts at the pole and the last row's (b, c, d) when it ends there. */
  lemma {:induction false} RowsTriangleCountValue(H: nat, m: nat, thetaStart: real, thetaEndIsPi: bool)
    requires 2 <= H && m <= H
    ensures RowsTriangleCount(H, m, thetaStart, thetaEndIsPi)
            == 2 * m - (if m > 0 && !(thetaStart > 0.0) then 1 else 0) - (if m == H && thetaEndIsPi then 1 else 0)
    decreases m
  {
    if m > 0 {
      RowsTriangleCountValue(H, m - 1, thetaStart, thetaEndIsPi);
    }
  }

  /** The index array holds 3·W·(2H − s − e) entries, where s and e say
      whether the sphere touches the north and the south pole: 6·W·(H−1) for
      the full sphere, 6·W·H for a band touching neither, and always whole
      triangles. */
  lemma SphereIndexCount(W: nat, H: nat, thetaStart: real, thetaEndIsPi: bool)
    requires H >= 2
    ensures var n := |TriangleIndices(SphereTriangles(W, H, H, thetaStart, thetaEndIsPi))|;
      && n == 3 * W * (2 * H - (if thetaStart > 0.0 then 0 else 1) - (if thetaEndIsPi then 1 else 0))
      && n % 3 == 0
      && (thetaStart == 0.0 && thetaEndIsPi ==> n == 6 * W * (H - 1))
      && (thetaStart > 0.0 && !thetaEndIsPi ==> n == 6 * W * H)
  {
    var ts := SphereTriangles(W, H, H, thetaStart, thetaEndIsPi);
    var c := 2 * H - (if thetaStart > 0.0 then 0 else 1) - (if thetaEndIsPi then 1 else 0);
    SphereTrianglesLength(W, H, H, thetaStart, thetaEndIsPi);
    RowsTriangleCountValue(H, H, thetaStart, thetaEndIsPi);
    TriangleIndicesLength(ts);
    MulAssociates(3, W, c);
    if thetaStart == 0.0 && thetaEndIsPi {
      TripleOfDouble(W, H - 1);
    }
    if thetaStart > 0.0 && !thetaEndIsPi {
      TripleOfDouble(W, H);
    }
  }

  lemma TripleOfDouble(W: nat, x: nat)
    ensures 3 * W * (2 * x) == 6 * W * x
  {
    MulAssociates(3, W, 2 * x);
    MulAssociates(6, W, x);
  }

  /** Whether vertex number k lies on the first or on the last grid row. */
  predicate OnNorthRow(W: nat, k: nat) {
    k <= W
  }

  predicate OnSouthRow(W: nat, H: nat, k: nat) {
    RowStart(W, H) <= k
  }

  /** A triangle with two corners on a pole row collapses to a sliver at the pole. */
  predicate TwoOnNorthRow(W: nat, t: Triangle) {
    (OnNorthRow(W, t.a) && OnNorthRow(W, t.b)) || (OnNorthRow(W, t.a) && OnNorthRow(W, t.c))
      || (OnNorthRow(W, t.b) && OnNorthRow(W, t.c))
  }

  predicate TwoOnSouthRow(W: nat, H: nat, t: Triangle) {
    (OnSouthRow(W, H, t.a) && OnSouthRow(W, H, t.b)) || (OnSouthRow(W, H, t.a) && OnSouthRow(W, H, t.c))
      || (OnSouthRow(W, H, t.b) && OnSouthRow(W, H, t.c))
  }

  lemma CellNoPoleSliver(W: nat, H: nat, iy: nat, ix: nat, thetaStart: real, thetaEndIsPi: bool)
    requires iy < H && ix < W
    ensures forall t :: t in CellTriangles(W, H, iy, ix, thetaStart, thetaEndIsPi) ==>
      && (!(thetaStart > 0.0) ==> !TwoOnNorthRow(W, t))
      && (thetaEndIsPi ==> !TwoOnSouthRow(W, H, t))
  {
    // Corners on row iy + 1 are past the first row; corners on row iy are before the last.
    RowStartMonotone(W, 0, iy + 1);
    RowStartMonotone(W, iy, H);
    if iy > 0 {
      RowStartMonotone(W, 0, iy);
    }
    if iy + 1 < H {
      RowStartMonotone(W, iy + 1, H);
    }
  }

  lemma {:induction false} RowNoPoleSliver(W: nat, H: nat, iy: nat, n: nat, thetaStart: real, thetaEndIsPi: bool)
    requires iy < H && n <= W
    ensures forall t :: t in RowTriangles(W, H, iy, n, thetaStart, thetaEndIsPi) ==>
      && (!(thetaStart > 0.0) ==> !TwoOnNorthRow(W, t))
      && (thetaEndIsPi ==> !TwoOnSouthRow(W, H, t))
    decreases n
  {
    if n > 0 {
      RowNoPoleSliver(W, H, iy, n - 1, thetaStart, thetaEndIsPi);
      CellNoPoleSliver(W, H, iy, n - 1, thetaStart, thetaEndIsPi);
    }
  }

  /** The reason for the pole skipping: when the sphere reaches a pole, no
      emitted triangle has two corners on that pole's row. */
  lemma {:induction false} SphereNoPoleSliver(W: nat, H: nat, m: nat, thetaStart: real, thetaEndIsPi: bool)
    requires m <= H
    ensures forall t :: t in SphereTriangles(W, H, m, thetaStart, thetaEndIsPi) ==>
      && (!(thetaStart > 0.0) ==> !TwoOnNorthRow(W, t))
      && (thetaEndIsPi ==> !TwoOnSouthRow(W, H, t))
    decreases m
  {
    if m > 0 {
      SphereNoPoleSliver(W, H, m - 1, thetaStart, thetaEndIsPi);
      RowNoPoleSliver(W, H, m - 1, W, thetaStart, thetaEndIsPi);
    }
  }

  // ---------------------------------------------------------------------------
  // Cylinder / ring (PrimitiveMesh.js:98-208)

  datatype Ring = FrontStart | FrontEnd | BackStart | BackEnd

  /** Point `index` of one of the four rings (inner/outer radius, front/back face). */
  datatype RingPoint = RingPoint(ring: Ring, index: nat)

  datatype CylinderNormal = Front | Back | Inward(index: nat) | Outward(index: nat)

  datatype CylinderVertex = CylinderVertex(point: RingPoint, normal: CylinderNormal)

  datatype CylinderMesh = CylinderMesh(vertices: seq<Float<CylinderVertex>>, indices: seq<nat>)

  datatype CylinderResult = Ok(mesh: CylinderMesh) | Error(message: string)

  const TooFewSegmentsMessage := "Cylinder must have at least 3 segments"
  const RadiusOrderMessage := "Start radius must be lower than end radius"

  const VerticesPerSegment: nat := 24

  /** Two triangles joining ring points i and n of rings `a` and `b`:
      (a i, b i, a n) and (b i, b n, a n), with normal `normalI` at
      point i and `normalN` at point n. */
  function Face(a: Ring, b: Ring, normalI: CylinderNormal, normalN: CylinderNormal, i: nat, n: nat): seq<CylinderVertex> {
    [ CylinderVertex(RingPoint(a, i), normalI),
      CylinderVertex(RingPoint(b, i), normalI),
      CylinderVertex(RingPoint(a, n), normalN),
      CylinderVertex(RingPoint(b, i), normalI),
      CylinderVertex(RingPoint(b, n), normalN),
      CylinderVertex(RingPoint(a, n), normalN) ]
  }

  /** The 24 vertices segment i emits, pairing ring point i with its
      neighbour n: front cap, back cap, inner wall, outer wall. */
  function SegmentVertices(i: nat, n: nat): seq<CylinderVertex> {
    Face(FrontStart, FrontEnd, Front, Front, i, n)
      + Face(BackStart, BackEnd, Back, Back, i, n)
      + Face(FrontStart, BackStart, Inward(i), Inward(n), i, n)
      + Face(FrontEnd, BackEnd, Outward(i), Outward(n), i, n)
  }

  /** The neighbour of segment i: the next one, wrapping to 0 after the last. */
  function NextSegment(i: nat, numSegments: nat): nat {
    if i + 1 >= numSegments then 0 else i + 1
  }

  /** The first k segments, each with its neighbour. */
  function CylinderSegments(numSegments: nat, k: nat): seq<seq<CylinderVertex>> {
    seq(k, m requires 0 <= m => SegmentVertices(m, NextSegment(m, numSegments)))
  }

  /** The vertices of the first k segments, in segment order. */
  function CylinderVertices(numSegments: nat, k: nat): seq<CylinderVertex> {
    Join(CylinderSegments(numSegments, k))
  }

  /** The chunks one after another. */
  function Join<T>(chunks: seq<seq<T>>): seq<T>
    decreases |chunks|
  {
    if chunks == [] then [] else Join(chunks[..|chunks| - 1]) + chunks[|chunks| - 1]
  }

  method GenerateCylinderMesh(numSegments: int, startRadius: real, endRadius: real, thickness: real)
    returns (result: CylinderResult)
    ensures numSegments < 3 ==> result == Error(TooFewSegmentsMessage)
    ensures numSegments >= 3 && startRadius >= endRadius ==> result == Error(RadiusOrderMessage)
    ensures numSegments >= 3 && startRadius < endRadius ==>
      && result.Ok?
      && result.mesh.vertices == Flatten(CylinderVertices(numSegments, numSegments))
      && |result.mesh.indices| == |result.mesh.vertices| / FloatsPerVertex
      && forall k :: 0 <= k < |result.mesh.indices| ==> result.mesh.indices[k] == k
  {
    if numSegments < 3 {
      return Error(TooFewSegmentsMessage);
    }
    if startRadius >= endRadius {
      return Error(RadiusOrderMessage);
    }

    var frontStart, frontEnd, backStart, backEnd, inward, outward := RingLabels(numSegments);

    var vertexArray: seq<Float<CylinderVertex>> := [];
    var i := 0;
    while i < numSegments
      invariant 0 <= i <= numSegments
      invariant vertexArray == Flatten(CylinderVertices(numSegments, i))
    {
      var n := i + 1;
      if n >= numSegments {
        n := 0;
      }
      vertexArray := PushSegment(numSegments, frontStart, frontEnd, backStart, backEnd, inward, outward, i, n, vertexArray);
      CylinderVerticesStep(numSegments, i);
      i := i + 1;
    }

    var numIndices := |vertexArray| / FloatsPerVertex;
    var indexArray := seq(numIndices, k requires 0 <= k => k);
    result := Ok(CylinderMesh(vertexArray, indexArray));
  }

  /** The labels of ring `ring`'s points 0..n-1. */
  function RingPoints(ring: Ring, n: nat): seq<RingPoint> {
    seq(n, k requires 0 <= k => RingPoint(ring, k))
  }

  function InwardNormals(n: nat): seq<CylinderNormal> {
    seq(n, k requires 0 <= k => Inward(k))
  }

  function OutwardNormals(n: nat): seq<CylinderNormal> {
    seq(n, k requires 0 <= k => Outward(k))
  }

  /** The first loop: one point on each of the four rings and one inward and
      one outward normal per segment, in segment order. */
  method RingLabels(numSegments: nat)
    returns (frontStart: seq<RingPoint>, frontEnd: seq<RingPoint>, backStart: seq<RingPoint>, backEnd: seq<RingPoint>,
             inward: seq<CylinderNormal>, outward: seq<CylinderNormal>)
    ensures frontStart == RingPoints(FrontStart, numSegments) && frontEnd == RingPoints(FrontEnd, numSegments)
    ensures backStart == RingPoints(BackStart, numSegments) && backEnd == RingPoints(BackEnd, numSegments)
    ensures inward == InwardNormals(numSegments) && outward == OutwardNormals(numSegments)
  {
    frontStart, frontEnd, backStart, backEnd, inward, outward := [], [], [], [], [], [];
    var i := 0;
    while i < numSegments
      invariant 0 <= i <= numSegments
      invariant frontStart == RingPoints(FrontStart, i) && frontEnd == RingPoints(FrontEnd, i)
      invariant backStart == RingPoints(BackStart, i) && backEnd == RingPoints(BackEnd, i)
      invariant inward == InwardNormals(i) && outward == OutwardNormals(i)
    {
      outward := outward + [Outward(i)];
      inward := inward + [Inward(i)];
      frontStart := frontStart + [RingPoint(FrontStart, i)];
      backStart := backStart + [RingPoint(BackStart, i)];
      frontEnd := frontEnd + [RingPoint(FrontEnd, i)];
      backEnd := backEnd + [RingPoint(BackEnd, i)];
      RingLabelsStep(i);
      i := i + 1;
    }
  }

  lemma RingLabelsStep(i: nat)
    ensures RingPoints(FrontStart, i + 1) == RingPoints(FrontStart, i) + [RingPoint(FrontStart, i)]
    ensures RingPoints(FrontEnd, i + 1) == RingPoints(FrontEnd, i) + [RingPoint(FrontEnd, i)]
    ensures RingPoints(BackStart, i + 1) == RingPoints(BackStart, i) + [RingPoint(BackStart, i)]
    ensures RingPoints(BackEnd, i + 1) == RingPoints(BackEnd, i) + [RingPoint(BackEnd, i)]
    ensures InwardNormals(i + 1) == InwardNormals(i) + [Inward(i)]
    ensures OutwardNormals(i + 1) == OutwardNormals(i) + [Outward(i)]
  {
  }

  /** The 24 `pushVertex` calls of segment i with neighbour n, face by face. */
  method PushSegment(numSegments: nat, frontStart: seq<RingPoint>, frontEnd: seq<RingPoint>,
                     backStart: seq<RingPoint>, backEnd: seq<RingPoint>,
                     inward: seq<CylinderNormal>, outward: seq<CylinderNormal>,
                     i: nat, n: nat, vertexArray: seq<Float<CylinderVertex>>)
    returns (vertexArray': seq<Float<CylinderVertex>>)
    requires i < numSegments && n < numSegments
    requires frontStart == RingPoints(FrontStart, numSegments) && frontEnd == RingPoints(FrontEnd, numSegments)
    requires backStart == RingPoints(BackStart, numSegments) && backEnd == RingPoints(BackEnd, numSegments)
    requires inward == InwardNormals(numSegments) && outward == OutwardNormals(numSegments)
    ensures vertexArray' == vertexArray + Flatten(SegmentVertices(i, n))
  {
    var front := Face(FrontStart, FrontEnd, Front, Front, i, n);
    var back := Face(BackStart, BackEnd, Back, Back, i, n);
    var inner := Face(FrontStart, BackStart, Inward(i), Inward(n), i, n);
    var outer := Face(FrontEnd, BackEnd, Outward(i), Outward(n), i, n);
    vertexArray' := PushFace(frontStart[i], frontEnd[i], frontStart[n], frontEnd[n], Front, Front, vertexArray);
    vertexArray' := PushFace(backStart[i], backEnd[i], backStart[n], backEnd[n], Back, Back, vertexArray');
    AppendStep(vertexArray, front, back);
    vertexArray' := PushFace(frontStart[i], backStart[i], frontStart[n], backStart[n], inward[i], inward[n], vertexArray');
    AppendStep(vertexArray, front + back, inner);
    vertexArray' := PushFace(frontEnd[i], backEnd[i], frontEnd[n], backEnd[n], outward[i], outward[n], vertexArray');
    AppendStep(vertexArray, front + back + inner, outer);
  }

  /** Pushing the floats of `more` after those of `done`. */
  lemma AppendStep<V>(prefix: seq<Float<V>>, done: seq<V>, more: seq<V>)
    ensures prefix + Flatten(done) + Flatten(more) == prefix + Flatten(done + more)
  {
    FlattenAppend(done, more);
    AppendAssociates(prefix, Flatten(done), Flatten(more));
  }

  /** Six `pushVertex` calls: (ai, bi, an) and (bi, bn, an). */
  method PushFace(ai: RingPoint, bi: RingPoint, an: RingPoint, bn: RingPoint,
                  normalI: CylinderNormal, normalN: CylinderNormal, vertexArray: seq<Float<CylinderVertex>>)
    returns (vertexArray': seq<Float<CylinderVertex>>)
    requires ai.ring == an.ring && bi.ring == bn.ring && ai.index == bi.index && an.index == bn.index
    ensures vertexArray' == vertexArray + Flatten(Face(ai.ring, bi.ring, normalI, normalN, ai.index, an.index))
  {
    var face := [ CylinderVertex(ai, normalI), CylinderVertex(bi, normalI), CylinderVertex(an, normalN),
                  CylinderVertex(bi, normalI), CylinderVertex(bn, normalN), CylinderVertex(an, normalN) ];
    assert face == Face(ai.ring, bi.ring, normalI, normalN, ai.index, an.index);
    vertexArray' := vertexArray + Flatten(face);
  }

  /** One more segment appends that segment's floats. */
  lemma CylinderVerticesStep(numSegments: nat, i: nat)
    ensures Flatten(CylinderVertices(numSegments, i + 1))
            == Flatten(CylinderVertices(numSegments, i)) + Flatten(SegmentVertices(i, NextSegment(i, numSegments)))
  {
    assert CylinderSegments(numSegments, i + 1)[..i] == CylinderSegments(numSegments, i);
    FlattenAppend(CylinderVertices(numSegments, i), SegmentVertices(i, NextSegment(i, numSegments)));
  }

  lemma SegmentVerticesLength(i: nat, n: nat)
    ensures |SegmentVertices(i, n)| == VerticesPerSegment
  {
  }

  lemma CylinderVerticesLength(numSegments: nat, k: nat)
    ensures |CylinderVertices(numSegments, k)| == 24 * k
  {
    forall m | 0 <= m < k
      ensures |CylinderSegments(numSegments, k)[m]| == 24
    {
      SegmentVerticesLength(m, NextSegment(m, numSegments));
    }
    JoinLength(CylinderSegments(numSegments, k));
  }

  /** Vertex 24·i + j of the ring is vertex j of segment i, whose neighbour
      is ring point (i + 1) mod numSegments. */
  lemma CylinderSegmentAt(numSegments: nat, k: nat, i: nat, j: nat)
    requires i < k <= numSegments && j < 24
    ensures 24 * i + j < |CylinderVertices(numSegments, k)|
    ensures CylinderVertices(numSegments, k)[24 * i + j]
            == SegmentVertices(i, (i + 1) % numSegments)[j]
  {
    var segments := CylinderSegments(numSegments, k);
    forall m | 0 <= m < k
      ensures |segments[m]| == 24
    {
      SegmentVerticesLength(m, NextSegment(m, numSegments));
    }
    JoinAt(segments, i, j);
    NextSegmentMod(i, numSegments);
  }

  /** The neighbour of segment i is i + 1, wrapping round to 0. */
  lemma NextSegmentMod(i: nat, numSegments: nat)
    requires i < numSegments
    ensures NextSegment(i, numSegments) == (i + 1) % numSegments
  {
    if i + 1 == numSegments {
      assert (i + 1) % numSegments == 0;
    } else {
      assert (i + 1) % numSegments == i + 1;
    }
  }

  /** Chunks of 24 items each: the total is 24 per chunk. */
  lemma {:induction false} JoinLength<T>(chunks: seq<seq<T>>)
    requires forall m :: 0 <= m < |chunks| ==> |chunks[m]| == 24
    ensures |Join(chunks)| == 24 * |chunks|
    decreases |chunks|
  {
    if chunks != [] {
      JoinLength(chunks[..|chunks| - 1]);
    }
  }

  /** Item 24·i + j of the joined chunks is item j of chunk i. */
  lemma {:induction false} JoinAt<T>(chunks: seq<seq<T>>, i: nat, j: nat)
    requires forall m :: 0 <= m < |chunks| ==> |chunks[m]| == 24
    requires i < |chunks| && j < 24
    ensures 24 * i + j < |Join(chunks)|
    ensures Join(chunks)[24 * i + j] == chunks[i][j]
    decreases |chunks|
  {
    var n := |chunks| - 1;
    var init := chunks[..n];
    JoinLength(init);
    JoinLength(chunks);
    if i < n {
      JoinAt(init, i, j);
    }
  }

  /** Every item of the joined chunks comes from one of the chunks. */
  lemma {:induction false} JoinMember<T>(chunks: seq<seq<T>>, v: T)
    requires v in Join(chunks)
    ensures exists m :: 0 <= m < |chunks| && v in chunks[m]
    decreases |chunks|
  {
    var n := |chunks| - 1;
    if v !in chunks[n] {
      JoinMember(chunks[..n], v);
      var m :| 0 <= m < n && v in chunks[..n][m];
      assert v in chunks[m];
    }
  }

  /** A valid ring has 24·numSegments vertices of eight floats, and every
      label it uses names one of the numSegments ring points. */
  lemma CylinderLayout(numSegments: nat)
    ensures |Flatten(CylinderVertices(numSegments, numSegments))| == FloatsPerVertex * VerticesPerSegment * numSegments
    ensures forall v :: v in CylinderVertices(numSegments, numSegments) ==>
      && v.point.index < numSegments
      && (v.normal.Inward? || v.normal.Outward? ==> v.normal.index < numSegments)
  {
    CylinderVerticesLength(numSegments, numSegments);
    FlattenLayout(CylinderVertices(numSegments, numSegments));
    forall v | v in CylinderVertices(numSegments, numSegments)
      ensures v.point.index < numSegments
      ensures v.normal.Inward? || v.normal.Outward? ==> v.normal.index < numSegments
    {
      var segments := CylinderSegments(numSegments, numSegments);
      JoinMember(segments, v);
      var m :| 0 <= m < numSegments && v in segments[m];
      SegmentLabels(m, NextSegment(m, numSegments));
    }
  }

  /** Segment i only uses ring point i and its neighbour n. */
  lemma SegmentLabels(i: nat, n: nat)
    ensures forall v :: v in SegmentVertices(i, n) ==>
      && (v.point.index == i || v.point.index == n)
      && (v.normal.Inward? || v.normal.Outward? ==> v.normal.index == i || v.normal.index == n)
  {
    FaceLabels(FrontStart, FrontEnd, Front, Front, i, n);
    FaceLabels(BackStart, BackEnd, Back, Back, i, n);
    FaceLabels(FrontStart, BackStart, Inward(i), Inward(n), i, n);
    FaceLabels(FrontEnd, BackEnd, Outward(i), Outward(n), i, n);
  }

  /** A face uses ring points i and n only, with one of its two normals. */
  lemma FaceLabels(a: Ring, b: Ring, normalI: CylinderNormal, normalN: CylinderNormal, i: nat, n: nat)
    ensures forall v :: v in Face(a, b, normalI, normalN, i, n) ==>
      && (v.point.index == i || v.point.index == n)
      && (v.normal == normalI || v.normal == normalN)
  {
  }
}
