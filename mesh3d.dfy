/** Mesh3D::Load: turns the arrays an OBJ reader produces into a flat,
    non-indexed list of vertices centred at the origin.

    The reader's output (tinyobj's `attrib` and `shapes`) is an input here;
    OBJ text parsing is not part of this model. Floats are reals. */
module Mesh3D {
  import opened Glm

  /** Vertex3D: position, normal and color. A normal that Load never assigns
      stays as the vertex was default-constructed; `None` stands for it. */
  datatype Vertex3D = Vertex3D(position: Vec3, normal: Option<Vec3>, color: Vec3)

  /** tinyobj::index_t: indices into the attribute arrays; a negative
      `normalIndex` means the face vertex has no normal. */
  datatype Index = Index(vertexIndex: int, normalIndex: int, texcoordIndex: int)

  /** One tinyobj shape's mesh: the size of every face, and the index of every
      face vertex, face after face. */
  datatype Shape = Shape(numFaceVertices: seq<nat>, indices: seq<Index>)

  /** tinyobj::attrib_t: flat x, y, z triples. */
  datatype Attrib = Attrib(vertices: seq<real>, normals: seq<real>)

  /** What the reader reports after ParseFromFile: whether parsing succeeded,
      its error text, and the arrays it holds. */
  datatype ObjReader = ObjReader(parsed: bool, error: string, attrib: Attrib, shapes: seq<Shape>)

  /** A loaded model: its name and the vertices its buffer holds. */
  datatype Mesh = Mesh(name: string, data: seq<Vertex3D>)

  /** Load either returns a mesh or throws std::runtime_error with a message. */
  datatype LoadOutcome = Loaded(mesh: Mesh) | Thrown(message: string)

  const White := Vec3(1.0, 1.0, 1.0)

  /** The mesh `Mesh3D()` builds: no name, no vertices. */
  const EmptyMesh := Mesh("", [])

  /** Name Load gives every mesh it reads. */
  const LoadedName := "test"

  // ---------------------------------------------------------------- input

  /** The index reads only attribute entries that exist. */
  predicate IndexValid(attrib: Attrib, k: Index)
  {
    0 <= k.vertexIndex && 3 * k.vertexIndex + 2 < |attrib.vertices| &&
    (k.normalIndex >= 0 ==> 3 * k.normalIndex + 2 < |attrib.normals|)
  }

  /** Sum of a list of face sizes, added from the front as the loops do. */
  function Sum(s: seq<nat>): (r: nat)
  {
    if s == [] then 0 else Sum(s[..|s| - 1]) + s[|s| - 1]
  }

  /** The faces of the shape fit in its index list, and every index the faces
      use is valid. */
  predicate ShapeValid(attrib: Attrib, shape: Shape)
  {
    Sum(shape.numFaceVertices) <= |shape.indices| &&
    forall t :: 0 <= t < Sum(shape.numFaceVertices) ==> IndexValid(attrib, shape.indices[t])
  }

  predicate ShapesValid(attrib: Attrib, shapes: seq<Shape>)
  {
    forall i :: 0 <= i < |shapes| ==> ShapeValid(attrib, shapes[i])
  }

  /** Number of face vertices over all shapes. */
  function TotalFaceVertices(shapes: seq<Shape>): (r: nat)
  {
    if shapes == [] then 0
    else TotalFaceVertices(shapes[..|shapes| - 1]) + Sum(shapes[|shapes| - 1].numFaceVertices)
  }

  lemma SumSnoc(s: seq<nat>, j: nat)
    requires j < |s|
    ensures Sum(s[..j + 1]) == Sum(s[..j]) + s[j]
  {
    assert s[..j + 1][..j] == s[..j];
  }

  lemma {:induction false} SumPrefixBound(s: seq<nat>, j: nat)
    requires j <= |s|
    ensures Sum(s[..j]) <= Sum(s)
  {
    if j < |s| {
      SumPrefixBound(s[..|s| - 1], j);
      assert s[..|s| - 1][..j] == s[..j];
      assert s[..|s|] == s;
    } else {
      assert s[..j] == s;
    }
  }

  // -------------------------------------------------------- specification

  /** The vertex built for one face vertex: position from the vertex array,
      normal from the normal array when the normal index is non-negative,
      white color. */
  function MakeVertex(attrib: Attrib, k: Index): (r: Vertex3D)
    requires IndexValid(attrib, k)
  {
    var vi := k.vertexIndex;
    var position := Vec3(attrib.vertices[3 * vi], attrib.vertices[3 * vi + 1], attrib.vertices[3 * vi + 2]);
    var normal :=
      if k.normalIndex >= 0 then
        var ni := k.normalIndex;
        Some(Vec3(attrib.normals[3 * ni], attrib.normals[3 * ni + 1], attrib.normals[3 * ni + 2]))
      else None;
    Vertex3D(position, normal, White)
  }

  /** Where face `j` starts in its shape's index list: the sizes of the
      faces before it. */
  function FaceOffset(shape: Shape, j: nat): (r: nat)
    requires j <= |shape.numFaceVertices|
  {
    Sum(shape.numFaceVertices[..j])
  }

  /** The vertices of face `j`, in index order. */
  function FaceVertices(attrib: Attrib, shape: Shape, j: nat): (r: seq<Vertex3D>)
    requires ShapeValid(attrib, shape) && j < |shape.numFaceVertices|
  {
    var off := FaceOffset(shape, j);
    var n := shape.numFaceVertices[j];
    SumSnoc(shape.numFaceVertices, j);
    SumPrefixBound(shape.numFaceVertices, j + 1);
    seq(n, v requires 0 <= v < n => MakeVertex(attrib, shape.indices[off + v]))
  }

  /** The vertices of the first `j` faces of a shape. */
  function ShapeVertices(attrib: Attrib, shape: Shape, j: nat): (r: seq<Vertex3D>)
    requires ShapeValid(attrib, shape) && j <= |shape.numFaceVertices|
  {
    if j == 0 then [] else ShapeVertices(attrib, shape, j - 1) + FaceVertices(attrib, shape, j - 1)
  }

  function AllShapeVertices(attrib: Attrib, shape: Shape): (r: seq<Vertex3D>)
    requires ShapeValid(attrib, shape)
  {
    ShapeVertices(attrib, shape, |shape.numFaceVertices|)
  }

  /** Every face vertex of every shape, shapes in order. */
  function Flattened(attrib: Attrib, shapes: seq<Shape>): (r: seq<Vertex3D>)
    requires ShapesValid(attrib, shapes)
  {
    if shapes == [] then []
    else Flattened(attrib, shapes[..|shapes| - 1]) + AllShapeVertices(attrib, shapes[|shapes| - 1])
  }

  /** Sum of the positions, accumulated front to back like `center`. */
  function SumPositions(data: seq<Vertex3D>): (r: Vec3)
  {
    if data == [] then Zero3 else Add3(SumPositions(data[..|data| - 1]), data[|data| - 1].position)
  }

  /** Arithmetic mean of the positions. */
  function Mean(data: seq<Vertex3D>): (r: Vec3)
    requires data != []
  {
    Div3(SumPositions(data), |data| as real)
  }

  /** Every position moved by -c; normals and colors kept. */
  function Shifted(data: seq<Vertex3D>, c: Vec3): (r: seq<Vertex3D>)
  {
    seq(|data|, t requires 0 <= t < |data| => data[t].(position := Sub3(data[t].position, c)))
  }

  /** Every position moved by minus the mean; an empty list stays empty. */
  function Recentered(data: seq<Vertex3D>): (r: seq<Vertex3D>)
  {
    if data == [] then [] else Shifted(data, Mean(data))
  }

  // -------------------------------------------------------------- the code

  /** Mesh3D::Load. `fileExists` is what std::filesystem::exists reports for
      `filename`; `reader` is the reader after ParseFromFile. `log` is what
      Load writes to std::cerr. */
  method Load(filename: string, fileExists: bool, reader: ObjReader) returns (outcome: LoadOutcome, log: string)
    requires fileExists && (reader.parsed || reader.error == []) ==> ShapesValid(reader.attrib, reader.shapes)
    ensures !fileExists ==> outcome == Loaded(EmptyMesh) && log == "File '" + filename + "' does not exist.\n"
    ensures fileExists && !reader.parsed && reader.error != [] ==> outcome == Thrown(reader.error) && log == []
    ensures fileExists && (reader.parsed || reader.error == []) ==>
      && log == []
      && outcome == Loaded(Mesh(LoadedName, Recentered(Flattened(reader.attrib, reader.shapes))))
      && |outcome.mesh.data| == TotalFaceVertices(reader.shapes)
      && SumPositions(outcome.mesh.data) == Zero3
      && (forall p :: 0 <= p < |outcome.mesh.data| ==> outcome.mesh.data[p].color == White)
  {
    if !fileExists {
      return Loaded(EmptyMesh), "File '" + filename + "' does not exist.\n";
    }
    log := [];
    if !reader.parsed {
      if reader.error != [] {
        return Thrown(reader.error), log;
      }
    }
    var data, center := FlattenShapes(reader.attrib, reader.shapes);
    FlattenedLength(reader.attrib, reader.shapes);
    ghost var original := data;
    data := RecenterPositions(data, center);
    RecenteredSumsToZero(original);
    LoadedAllWhite(reader.attrib, reader.shapes);
    outcome := Loaded(Mesh(LoadedName, data));
  }

  /** The nested loops of Load: one fresh vertex per face vertex, shape by
      shape, with the running sum of positions in `center`. */
  method FlattenShapes(attrib: Attrib, shapes: seq<Shape>) returns (data: seq<Vertex3D>, center: Vec3)
    requires ShapesValid(attrib, shapes)
    ensures data == Flattened(attrib, shapes)
    ensures center == SumPositions(data)
  {
    data, center := [], Zero3;
    for i := 0 to |shapes|
      invariant data == Flattened(attrib, shapes[..i])
      invariant center == SumPositions(data)
    {
      assert ShapeValid(attrib, shapes[i]);
      data, center := AppendShape(attrib, shapes[i], data, center);
      assert shapes[..i + 1][..i] == shapes[..i];
    }
    assert shapes[..|shapes|] == shapes;
  }

  /** Load's loop over the faces of one shape, with `offset` restarting at 0
      and advancing by each face's size. */
  method AppendShape(attrib: Attrib, shape: Shape, data: seq<Vertex3D>, center: Vec3)
    returns (data': seq<Vertex3D>, center': Vec3)
    requires ShapeValid(attrib, shape) && center == SumPositions(data)
    ensures data' == data + AllShapeVertices(attrib, shape)
    ensures center' == SumPositions(data')
  {
    var nfv := shape.numFaceVertices;
    data', center' := data, center;
    var offset := 0;
    for j := 0 to |nfv|
      invariant offset == FaceOffset(shape, j)
      invariant data' == data + ShapeVertices(attrib, shape, j)
      invariant center' == SumPositions(data')
    {
      data', center' := AppendFace(attrib, shape, j, offset, data', center');
      SumSnoc(nfv, j);
      offset := offset + nfv[j];
    }
  }

  /** Load's innermost loop: appends the vertices of face `j`, whose indices
      start at `offset`, and adds their positions to `center`. */
  method AppendFace(attrib: Attrib, shape: Shape, j: nat, offset: nat, data: seq<Vertex3D>, center: Vec3)
    returns (data': seq<Vertex3D>, center': Vec3)
    requires ShapeValid(attrib, shape) && j < |shape.numFaceVertices|
    requires offset == FaceOffset(shape, j) && center == SumPositions(data)
    ensures data' == data + FaceVertices(attrib, shape, j)
    ensures center' == SumPositions(data')
  {
    var nfv := shape.numFaceVertices;
    SumSnoc(nfv, j);
    SumPrefixBound(nfv, j + 1);
    ghost var face := FaceVertices(attrib, shape, j);
    data', center' := data, center;
    for v := 0 to nfv[j]
      invariant data' == data + face[..v]
      invariant center' == SumPositions(data')
    {
      var k := shape.indices[offset + v];
      var vertex := ReadVertex(attrib, k);
      center' := Add3(center', vertex.position);
      assert face[v] == vertex;
      assert face[..v + 1] == face[..v] + [vertex];
      SumPositionsSnoc(data', vertex);
      data' := data' + [vertex];
    }
    assert face[..nfv[j]] == face;
  }

  /** The body of Load's innermost loop: a fresh vertex whose position is read
      from the vertex array, whose normal is read only when the normal index
      is non-negative, and whose color is white. */
  method ReadVertex(attrib: Attrib, k: Index) returns (vertex: Vertex3D)
    requires IndexValid(attrib, k)
    ensures vertex.position == Vec3(attrib.vertices[3 * k.vertexIndex], attrib.vertices[3 * k.vertexIndex + 1],
                                    attrib.vertices[3 * k.vertexIndex + 2])
    ensures vertex.normal.Some? <==> k.normalIndex >= 0
    ensures vertex.normal.Some? ==>
      vertex.normal.value == Vec3(attrib.normals[3 * k.normalIndex], attrib.normals[3 * k.normalIndex + 1],
                                  attrib.normals[3 * k.normalIndex + 2])
    ensures vertex.color == White
    ensures vertex == MakeVertex(attrib, k)
  {
    var vi := k.vertexIndex;
    var position := Vec3(attrib.vertices[3 * vi], attrib.vertices[3 * vi + 1], attrib.vertices[3 * vi + 2]);
    var normal: Option<Vec3> := None;
    if k.normalIndex >= 0 {
      var ni := k.normalIndex;
      normal := Some(Vec3(attrib.normals[3 * ni], attrib.normals[3 * ni + 1], attrib.normals[3 * ni + 2]));
    }
    vertex := Vertex3D(position, normal, White);
  }

  /** The second loop of Load: subtract center / size from every position,
      in place. With no vertices the loop body, and its division, never runs. */
  method RecenterPositions(data: seq<Vertex3D>, center: Vec3) returns (result: seq<Vertex3D>)
    requires center == SumPositions(data)
    ensures result == Recentered(data)
  {
    result := data;
    for k := 0 to |result|
      invariant |result| == |data|
      invariant forall t :: 0 <= t < k ==> result[t] == Recentered(data)[t]
      invariant forall t :: k <= t < |data| ==> result[t] == data[t]
    {
      result := result[k := result[k].(position := Sub3(result[k].position, Div3(center, |result| as real)))];
    }
    assert result == Recentered(data);
  }

  // ------------------------------------------------------------ properties

  lemma {:induction false} ShapeVerticesLength(attrib: Attrib, shape: Shape, j: nat)
    requires ShapeValid(attrib, shape) && j <= |shape.numFaceVertices|
    ensures |ShapeVertices(attrib, shape, j)| == FaceOffset(shape, j)
  {
    if j > 0 {
      ShapeVerticesLength(attrib, shape, j - 1);
      SumSnoc(shape.numFaceVertices, j - 1);
    }
  }

  /** The mesh has one vertex per face vertex: no deduplication. */
  lemma {:induction false} FlattenedLength(attrib: Attrib, shapes: seq<Shape>)
    requires ShapesValid(attrib, shapes)
    ensures |Flattened(attrib, shapes)| == TotalFaceVertices(shapes)
  {
    if shapes != [] {
      var last := shapes[|shapes| - 1];
      FlattenedLength(attrib, shapes[..|shapes| - 1]);
      ShapeVerticesLength(attrib, last, |last.numFaceVertices|);
      assert last.numFaceVertices[..|last.numFaceVertices|] == last.numFaceVertices;
    }
  }

  /** Inside a shape, vertex `v` of face `j` sits after the vertices of the
      earlier faces and is built from index `FaceOffset(j) + v`. */
  lemma {:induction false} ShapeVerticesAt(attrib: Attrib, shape: Shape, n: nat, j: nat, v: nat)
    requires ShapeValid(attrib, shape) && j < n <= |shape.numFaceVertices| && v < shape.numFaceVertices[j]
    ensures FaceOffset(shape, j) + v < |ShapeVertices(attrib, shape, n)|
    ensures FaceOffset(shape, j) + v < |shape.indices|
    ensures IndexValid(attrib, shape.indices[FaceOffset(shape, j) + v])
    ensures ShapeVertices(attrib, shape, n)[FaceOffset(shape, j) + v]
            == MakeVertex(attrib, shape.indices[FaceOffset(shape, j) + v])
  {
    SumSnoc(shape.numFaceVertices, j);
    SumPrefixBound(shape.numFaceVertices, j + 1);
    ShapeVerticesLength(attrib, shape, n - 1);
    if j < n - 1 {
      ShapeVerticesAt(attrib, shape, n - 1, j, v);
    } else {
      assert FaceVertices(attrib, shape, j)[v] == MakeVertex(attrib, shape.indices[FaceOffset(shape, j) + v]);
    }
  }

  /** Where shape `i` starts in the flattened list. */
  function ShapeStart(shapes: seq<Shape>, i: nat): (r: nat)
    requires i <= |shapes|
  {
    TotalFaceVertices(shapes[..i])
  }

  /** The vertex for face vertex `v` of face `j` of shape `i` is at
      ShapeStart(i) + FaceOffset(j) + v and is built from index
      FaceOffset(j) + v of that shape: the offset restarts for every shape. */
  lemma {:induction false} FlattenedVertexAt(attrib: Attrib, shapes: seq<Shape>, i: nat, j: nat, v: nat)
    requires ShapesValid(attrib, shapes) && i < |shapes|
    requires j < |shapes[i].numFaceVertices| && v < shapes[i].numFaceVertices[j]
    ensures FaceOffset(shapes[i], j) + v < |shapes[i].indices|
    ensures IndexValid(attrib, shapes[i].indices[FaceOffset(shapes[i], j) + v])
    ensures ShapeStart(shapes, i) + FaceOffset(shapes[i], j) + v < |Flattened(attrib, shapes)|
    ensures Flattened(attrib, shapes)[ShapeStart(shapes, i) + FaceOffset(shapes[i], j) + v]
            == MakeVertex(attrib, shapes[i].indices[FaceOffset(shapes[i], j) + v])
  {
    var shape := shapes[i];
    var init := shapes[..|shapes| - 1];
    assert ShapesValid(attrib, init);
    FlattenedLength(attrib, init);
    if i < |shapes| - 1 {
      FlattenedVertexAt(attrib, init, i, j, v);
      assert init[..i] == shapes[..i];
    } else {
      assert init == shapes[..i];
      ShapeVerticesAt(attrib, shape, |shape.numFaceVertices|, j, v);
    }
  }

  /** What each vertex of the flattened list holds: its position comes from
      the vertex array, its normal from the normal array exactly when the
      normal index is non-negative, and its color is white. */
  lemma FlattenedAt(attrib: Attrib, shapes: seq<Shape>, i: nat, j: nat, v: nat)
    requires ShapesValid(attrib, shapes) && i < |shapes|
    requires j < |shapes[i].numFaceVertices| && v < shapes[i].numFaceVertices[j]
    ensures FaceOffset(shapes[i], j) + v < |shapes[i].indices|
    ensures ShapeStart(shapes, i) + FaceOffset(shapes[i], j) + v < |Flattened(attrib, shapes)|
    ensures
      var k := shapes[i].indices[FaceOffset(shapes[i], j) + v];
      var vertex := Flattened(attrib, shapes)[ShapeStart(shapes, i) + FaceOffset(shapes[i], j) + v];
      && 0 <= k.vertexIndex && 3 * k.vertexIndex + 2 < |attrib.vertices|
      && vertex.position == Vec3(attrib.vertices[3 * k.vertexIndex], attrib.vertices[3 * k.vertexIndex + 1],
                                 attrib.vertices[3 * k.vertexIndex + 2])
      && (k.normalIndex >= 0 <==> vertex.normal.Some?)
      && (k.normalIndex >= 0 ==>
            && 3 * k.normalIndex + 2 < |attrib.normals|
            && vertex.normal.value == Vec3(attrib.normals[3 * k.normalIndex], attrib.normals[3 * k.normalIndex + 1],
                                           attrib.normals[3 * k.normalIndex + 2]))
      && vertex.color == White
  {
    FlattenedVertexAt(attrib, shapes, i, j, v);
  }

  lemma SumPositionsSnoc(data: seq<Vertex3D>, x: Vertex3D)
    ensures SumPositions(data + [x]) == Add3(SumPositions(data), x.position)
  {
    assert (data + [x])[..|data|] == data;
  }

  /** Moving every position by -c moves the sum by -|data| * c. */
  lemma {:induction false} SumShifted(data: seq<Vertex3D>, c: Vec3)
    ensures SumPositions(Shifted(data, c)) == Sub3(SumPositions(data), Scale3(c, |data| as real))
  {
    if data != [] {
      var n := |data|;
      var init := data[..n - 1];
      SumShifted(init, c);
      var sh := Shifted(data, c);
      assert forall t :: 0 <= t < n - 1 ==> sh[t] == Shifted(init, c)[t];
      assert sh[..n - 1] == Shifted(init, c);
      assert SumPositions(sh) == Add3(SumPositions(Shifted(init, c)), Sub3(data[n - 1].position, c));
      ScaleSucc(c, (n - 1) as real);
    }
  }

  lemma ScaleSucc(c: Vec3, m: real)
    ensures Scale3(c, m + 1.0) == Add3(Scale3(c, m), c)
  {
  }

  /** After recentering the positions sum to zero (their mean is the origin). */
  lemma RecenteredSumsToZero(data: seq<Vertex3D>)
    ensures SumPositions(Recentered(data)) == Zero3
  {
    if data != [] {
      var n := |data| as real;
      var s := SumPositions(data);
      SumShifted(data, Mean(data));
      assert Scale3(Div3(s, n), n) == s;
    }
  }

  /** Recentering keeps length, normals and colors, and moves each position by
      minus the mean of the original positions. */
  lemma RecenteredAt(data: seq<Vertex3D>, t: nat)
    requires t < |data|
    ensures |Recentered(data)| == |data|
    ensures Recentered(data)[t] == data[t].(position := Sub3(data[t].position, Mean(data)))
  {
  }

  /** Recentering an already centred list changes nothing. */
  lemma RecenteredIdempotent(data: seq<Vertex3D>)
    ensures Recentered(Recentered(data)) == Recentered(data)
  {
    if data != [] {
      var r := Recentered(data);
      RecenteredSumsToZero(data);
      assert Mean(r) == Zero3;
      assert Shifted(r, Zero3) == r;
    }
  }

  /** What a successful Load holds: for every face vertex, the mesh vertex at
      its place has the position read from the vertex array minus the mean of
      all positions read, the normal from the normal array when its index is
      non-negative, and color white. */
  lemma LoadedVertexAt(attrib: Attrib, shapes: seq<Shape>, i: nat, j: nat, v: nat)
    requires ShapesValid(attrib, shapes) && i < |shapes|
    requires j < |shapes[i].numFaceVertices| && v < shapes[i].numFaceVertices[j]
    ensures
      var flat := Flattened(attrib, shapes);
      var data := Recentered(flat);
      var p := ShapeStart(shapes, i) + FaceOffset(shapes[i], j) + v;
      && p < |data| == |flat|
      && data[p].position == Sub3(flat[p].position, Mean(flat))
      && data[p].normal == flat[p].normal
      && data[p].color == White
  {
    FlattenedAt(attrib, shapes, i, j, v);
  }

  lemma {:induction false} ShapeVerticesWhite(attrib: Attrib, shape: Shape, j: nat)
    requires ShapeValid(attrib, shape) && j <= |shape.numFaceVertices|
    ensures forall p :: 0 <= p < |ShapeVertices(attrib, shape, j)| ==> ShapeVertices(attrib, shape, j)[p].color == White
  {
    if j > 0 {
      ShapeVerticesWhite(attrib, shape, j - 1);
      var prev := ShapeVertices(attrib, shape, j - 1);
      var face := FaceVertices(attrib, shape, j - 1);
      var all: seq<Vertex3D> := prev + face;
      assert ShapeVertices(attrib, shape, j) == all;
      forall p: int | 0 <= p < |all|
        ensures all[p].color == White
      {
        if p >= |prev| {
          var q := p - |prev|;
          SumSnoc(shape.numFaceVertices, j - 1);
          SumPrefixBound(shape.numFaceVertices, j);
          assert all[p] == face[q] == MakeVertex(attrib, shape.indices[FaceOffset(shape, j - 1) + q]);
        }
      }
    }
  }

  /** Every flattened vertex is white, whichever shape and face it came from. */
  lemma {:induction false} FlattenedAllWhite(attrib: Attrib, shapes: seq<Shape>)
    requires ShapesValid(attrib, shapes)
    ensures forall p :: 0 <= p < |Flattened(attrib, shapes)| ==> Flattened(attrib, shapes)[p].color == White
  {
    if shapes != [] {
      var init := shapes[..|shapes| - 1];
      var last := shapes[|shapes| - 1];
      assert ShapesValid(attrib, init);
      FlattenedAllWhite(attrib, init);
      ShapeVerticesWhite(attrib, last, |last.numFaceVertices|);
      var a, b := Flattened(attrib, init), AllShapeVertices(attrib, last);
      var all: seq<Vertex3D> := a + b;
      assert Flattened(attrib, shapes) == all;
      forall p: int | 0 <= p < |all|
        ensures all[p].color == White
      {
        if p >= |a| {
          assert all[p] == b[p - |a|];
        }
      }
    }
  }

  /** Every vertex of a loaded mesh is white. */
  lemma LoadedAllWhite(attrib: Attrib, shapes: seq<Shape>)
    requires ShapesValid(attrib, shapes)
    ensures forall p :: 0 <= p < |Recentered(Flattened(attrib, shapes))| ==>
      Recentered(Flattened(attrib, shapes))[p].color == White
  {
    FlattenedAllWhite(attrib, shapes);
  }
}
