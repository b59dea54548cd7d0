/** The bounding box of the bonus prop group: the 36-vertex cube table, the
    box's model matrix, the six face planes built from three corners of each
    face, and the render-loop state that builds them once (the planes list and
    the firstPass flag). The end-to-end result: the planes decide membership
    of the closed box that the model matrix places, [1.5, 2.5]^3 for the
    matrix the scene uses. */
module Box {
  import opened Geometry
  import opened Visibility

  /** The cube's vertex table: 36 vertices, each a position (x, y, z) followed
      by a colour (r, g, b), six floats per vertex, six vertices per face, the
      faces in the order back, front, left, right, bottom, top. */
  const Vertices: seq<real> :=
    BackFloats + FrontFloats + LeftFloats + RightFloats + BottomFloats + TopFloats

  const BackFloats: seq<real> := [
    -0.5, -0.5, -0.5, 1.0, 0.0, 0.0,
    0.5, -0.5, -0.5, 1.0, 0.0, 0.0,
    0.5, 0.5, -0.5, 1.0, 0.0, 0.0,
    0.5, 0.5, -0.5, 1.0, 0.0, 0.0,
    -0.5, 0.5, -0.5, 1.0, 0.0, 0.0,
    -0.5, -0.5, -0.5, 1.0, 0.0, 0.0
  ]

  const FrontFloats: seq<real> := [
    -0.5, -0.5, 0.5, 1.0, 0.0, 0.0,
    0.5, 0.5, 0.5, 1.0, 0.0, 0.0,
    0.5, -0.5, 0.5, 1.0, 0.0, 0.0,
    0.5, 0.5, 0.5, 1.0, 0.0, 0.0,
    -0.5, -0.5, 0.5, 1.0, 0.0, 0.0,
    -0.5, 0.5, 0.5, 1.0, 0.0, 0.0
  ]

  const LeftFloats: seq<real> := [
    -0.5, 0.5, 0.5, 0.0, 1.0, 0.0,
    -0.5, -0.5, -0.5, 0.0, 1.0, 0.0,
    -0.5, 0.5, -0.5, 0.0, 1.0, 0.0,
    -0.5, -0.5, -0.5, 0.0, 1.0, 0.0,
    -0.5, 0.5, 0.5, 0.0, 1.0, 0.0,
    -0.5, -0.5, 0.5, 0.0, 1.0, 0.0
  ]

  const RightFloats: seq<real> := [
    0.5, 0.5, 0.5, 0.0, 1.0, 0.0,
    0.5, 0.5, -0.5, 0.0, 1.0, 0.0,
    0.5, -0.5, -0.5, 0.0, 1.0, 0.0,
    0.5, -0.5, -0.5, 0.0, 1.0, 0.0,
    0.5, -0.5, 0.5, 0.0, 1.0, 0.0,
    0.5, 0.5, 0.5, 0.0, 1.0, 0.0
  ]

  const BottomFloats: seq<real> := [
    -0.5, -0.5, -0.5, 0.0, 0.0, 1.0,
    0.5, -0.5, 0.5, 0.0, 0.0, 1.0,
    0.5, -0.5, -0.5, 0.0, 0.0, 1.0,
    0.5, -0.5, 0.5, 0.0, 0.0, 1.0,
    -0.5, -0.5, -0.5, 0.0, 0.0, 1.0,
    -0.5, -0.5, 0.5, 0.0, 0.0, 1.0
  ]

  const TopFloats: seq<real> := [
    -0.5, 0.5, -0.5, 0.0, 0.0, 1.0,
    0.5, 0.5, -0.5, 0.0, 0.0, 1.0,
    0.5, 0.5, 0.5, 0.0, 0.0, 1.0,
    0.5, 0.5, 0.5, 0.0, 0.0, 1.0,
    -0.5, 0.5, 0.5, 0.0, 0.0, 1.0,
    -0.5, 0.5, -0.5, 0.0, 0.0, 1.0
  ]

  /** Floats per vertex in the table. */
  const Stride := 6

  /** Offsets (in floats) of the first vertex of each face that the plane
      block reads: bottom, top, left, right, front, back. */
  const BottomFace := 144
  const TopFace := 180
  const LeftFace := 72
  const RightFace := 108
  const FrontFace := 36
  const BackFace := 0

  /** A model matrix made only of glm::translate and glm::scale: it maps v to
      offset + factor * v, coordinate by coordinate. */
  datatype ModelMatrix = ModelMatrix(offset: Vec3, factor: Vec3)

  /** glm::mat4(1.0). */
  function Identity(): ModelMatrix { ModelMatrix(Origin, Vec3(1.0, 1.0, 1.0)) }

  /** glm::translate(m, t) = m * T(t): translate first, then apply m. */
  function Translate(m: ModelMatrix, t: Vec3): ModelMatrix
  {
    ModelMatrix(Add(m.offset, Vec3(m.factor.x * t.x, m.factor.y * t.y, m.factor.z * t.z)), m.factor)
  }

  /** glm::scale(m, s) = m * S(s): scale first, then apply m. */
  function ScaleBy(m: ModelMatrix, s: Vec3): ModelMatrix
  {
    ModelMatrix(m.offset, Vec3(m.factor.x * s.x, m.factor.y * s.y, m.factor.z * s.z))
  }

  /** The matrices compose as glm's do: translate(m, t) moves a vertex by t
      before m acts on it, scale(m, s) stretches it by s before m acts on it,
      and the identity leaves it alone. */
  lemma MatrixSemantics(m: ModelMatrix, t: Vec3, s: Vec3, v: Vec3)
    ensures Transform(Identity(), v) == v
    ensures Transform(Translate(m, t), v) == Transform(m, Add(v, t))
    ensures Transform(ScaleBy(m, s), v) == Transform(m, Vec3(s.x * v.x, s.y * v.y, s.z * v.z))
  {
    assert m.factor.x * s.x * v.x == m.factor.x * (s.x * v.x);
    assert m.factor.y * s.y * v.y == m.factor.y * (s.y * v.y);
    assert m.factor.z * s.z * v.z == m.factor.z * (s.z * v.z);
  }

  /** model * vec4(v, 1.0), truncated back to a vec3. */
  function Transform(m: ModelMatrix, v: Vec3): Vec3
  {
    Vec3(m.offset.x + m.factor.x * v.x, m.offset.y + m.factor.y * v.y, m.offset.z + m.factor.z * v.z)
  }

  /** The box's model matrix: translate(mat4(1.0), vec3(2.0)) then
      scale(vec3(1.0)). */
  function BoxModel(): (m: ModelMatrix)
    ensures m == ModelMatrix(Vec3(2.0, 2.0, 2.0), Vec3(1.0, 1.0, 1.0))
    ensures BoxLow(m) == Vec3(1.5, 1.5, 1.5) && BoxHigh(m) == Vec3(2.5, 2.5, 2.5)
  {
    ScaleBy(Translate(Identity(), Vec3(2.0, 2.0, 2.0)), Vec3(1.0, 1.0, 1.0))
  }

  /** The position of the vertex whose first float is at `offset` in a
      table laid out like Vertices. */
  function VertexAt(vertices: seq<real>, offset: nat): Vec3
    requires offset + 2 < |vertices|
  {
    Vec3(vertices[offset], vertices[offset + 1], vertices[offset + 2])
  }

  /** The plane through the first three vertices of the face whose first
      float is at `face`, each mapped through the model matrix. */
  function FacePlane(m: ModelMatrix, vertices: seq<real>, face: nat): (plane: Plane)
    requires face + 2 * Stride + 2 < |vertices|
    ensures CalculateValue(plane, Transform(m, VertexAt(vertices, face))) == 0.0
    ensures CalculateValue(plane, Transform(m, VertexAt(vertices, face + Stride))) == 0.0
    ensures CalculateValue(plane, Transform(m, VertexAt(vertices, face + 2 * Stride))) == 0.0
  {
    CalculatePlane(Transform(m, VertexAt(vertices, face + 0 * Stride)),
                   Transform(m, VertexAt(vertices, face + 1 * Stride)),
                   Transform(m, VertexAt(vertices, face + 2 * Stride)))
  }

  /** The six planes in the order they are pushed: bottom, top, left, right,
      front, back, so that consecutive pairs are opposite faces. */
  function FacePlanes(m: ModelMatrix, vertices: seq<real>): (planes: seq<Plane>)
    requires |vertices| == 36 * Stride
    ensures |planes| == 6
  {
    [FacePlane(m, vertices, BottomFace), FacePlane(m, vertices, TopFace),
     FacePlane(m, vertices, LeftFace), FacePlane(m, vertices, RightFace),
     FacePlane(m, vertices, FrontFace), FacePlane(m, vertices, BackFace)]
  }

  /** The corners the plane block reads, as the table holds them: three
      corners of each face of the unit cube centred at the origin. */
  ghost predicate CubeCorners(vertices: seq<real>)
  {
    |vertices| == 36 * Stride
    && VertexAt(vertices, BottomFace) == Vec3(-0.5, -0.5, -0.5)
    && VertexAt(vertices, BottomFace + Stride) == Vec3(0.5, -0.5, 0.5)
    && VertexAt(vertices, BottomFace + 2 * Stride) == Vec3(0.5, -0.5, -0.5)
    && VertexAt(vertices, TopFace) == Vec3(-0.5, 0.5, -0.5)
    && VertexAt(vertices, TopFace + Stride) == Vec3(0.5, 0.5, -0.5)
    && VertexAt(vertices, TopFace + 2 * Stride) == Vec3(0.5, 0.5, 0.5)
    && VertexAt(vertices, LeftFace) == Vec3(-0.5, 0.5, 0.5)
    && VertexAt(vertices, LeftFace + Stride) == Vec3(-0.5, -0.5, -0.5)
    && VertexAt(vertices, LeftFace + 2 * Stride) == Vec3(-0.5, 0.5, -0.5)
    && VertexAt(vertices, RightFace) == Vec3(0.5, 0.5, 0.5)
    && VertexAt(vertices, RightFace + Stride) == Vec3(0.5, 0.5, -0.5)
    && VertexAt(vertices, RightFace + 2 * Stride) == Vec3(0.5, -0.5, -0.5)
    && VertexAt(vertices, FrontFace) == Vec3(-0.5, -0.5, 0.5)
    && VertexAt(vertices, FrontFace + Stride) == Vec3(0.5, 0.5, 0.5)
    && VertexAt(vertices, FrontFace + 2 * Stride) == Vec3(0.5, -0.5, 0.5)
    && VertexAt(vertices, BackFace) == Vec3(-0.5, -0.5, -0.5)
    && VertexAt(vertices, BackFace + Stride) == Vec3(0.5, -0.5, -0.5)
    && VertexAt(vertices, BackFace + 2 * Stride) == Vec3(0.5, 0.5, -0.5)
  }

  /** The table holds the corners the plane block expects. */
  lemma TableCorners()
    ensures CubeCorners(Vertices)
  {
    BottomCorners();
    TopCorners();
    LeftCorners();
    RightCorners();
    FrontCorners();
    BackCorners();
  }

  /** The first three vertices of the bottom face in the table. */
  lemma BottomCorners()
    ensures |Vertices| == 216
    ensures VertexAt(Vertices, BottomFace) == Vec3(-0.5, -0.5, -0.5)
    ensures VertexAt(Vertices, BottomFace + Stride) == Vec3(0.5, -0.5, 0.5)
    ensures VertexAt(Vertices, BottomFace + 2 * Stride) == Vec3(0.5, -0.5, -0.5)
  {
    assert Vertices[144] == -0.5;
    assert Vertices[145] == -0.5;
    assert Vertices[146] == -0.5;
    assert Vertices[150] == 0.5;
    assert Vertices[151] == -0.5;
    assert Vertices[152] == 0.5;
    assert Vertices[156] == 0.5;
    assert Vertices[157] == -0.5;
    assert Vertices[158] == -0.5;
  }

  /** The first three vertices of the top face in the table. */
  lemma TopCorners()
    ensures |Vertices| == 216
    ensures VertexAt(Vertices, TopFace) == Vec3(-0.5, 0.5, -0.5)
    ensures VertexAt(Vertices, TopFace + Stride) == Vec3(0.5, 0.5, -0.5)
    ensures VertexAt(Vertices, TopFace + 2 * Stride) == Vec3(0.5, 0.5, 0.5)
  {
    assert Vertices[180] == -0.5;
    assert Vertices[181] == 0.5;
    assert Vertices[182] == -0.5;
    assert Vertices[186] == 0.5;
    assert Vertices[187] == 0.5;
    assert Vertices[188] == -0.5;
    assert Vertices[192] == 0.5;
    assert Vertices[193] == 0.5;
    assert Vertices[194] == 0.5;
  }

  /** The first three vertices of the left face in the table. */
  lemma LeftCorners()
    ensures |Vertices| == 216
    ensures VertexAt(Vertices, LeftFace) == Vec3(-0.5, 0.5, 0.5)
    ensures VertexAt(Vertices, LeftFace + Stride) == Vec3(-0.5, -0.5, -0.5)
    ensures VertexAt(Vertices, LeftFace + 2 * Stride) == Vec3(-0.5, 0.5, -0.5)
  {
    assert Vertices[72] == -0.5;
    assert Vertices[73] == 0.5;
    assert Vertices[74] == 0.5;
    assert Vertices[78] == -0.5;
    assert Vertices[79] == -0.5;
    assert Vertices[80] == -0.5;
    assert Vertices[84] == -0.5;
    assert Vertices[85] == 0.5;
    assert Vertices[86] == -0.5;
  }

  /** The first three vertices of the right face in the table. */
  lemma RightCorners()
    ensures |Vertices| == 216
    ensures VertexAt(Vertices, RightFace) == Vec3(0.5, 0.5, 0.5)
    ensures VertexAt(Vertices, RightFace + Stride) == Vec3(0.5, 0.5, -0.5)
    ensures VertexAt(Vertices, RightFace + 2 * Stride) == Vec3(0.5, -0.5, -0.5)
  {
    assert Vertices[108] == 0.5;
    assert Vertices[109] == 0.5;
    assert Vertices[110] == 0.5;
    assert Vertices[114] == 0.5;
    assert Vertices[115] == 0.5;
    assert Vertices[116] == -0.5;
    assert Vertices[120] == 0.5;
    assert Vertices[121] == -0.5;
    assert Vertices[122] == -0.5;
  }

  /** The first three vertices of the front face in the table. */
  lemma FrontCorners()
    ensures |Vertices| == 216
    ensures VertexAt(Vertices, FrontFace) == Vec3(-0.5, -0.5, 0.5)
    ensures VertexAt(Vertices, FrontFace + Stride) == Vec3(0.5, 0.5, 0.5)
    ensures VertexAt(Vertices, FrontFace + 2 * Stride) == Vec3(0.5, -0.5, 0.5)
  {
    assert Vertices[36] == -0.5;
    assert Vertices[37] == -0.5;
    assert Vertices[38] == 0.5;
    assert Vertices[42] == 0.5;
    assert Vertices[43] == 0.5;
    assert Vertices[44] == 0.5;
    assert Vertices[48] == 0.5;
    assert Vertices[49] == -0.5;
    assert Vertices[50] == 0.5;
  }

  /** The first three vertices of the back face in the table. */
  lemma BackCorners()
    ensures |Vertices| == 216
    ensures VertexAt(Vertices, BackFace) == Vec3(-0.5, -0.5, -0.5)
    ensures VertexAt(Vertices, BackFace + Stride) == Vec3(0.5, -0.5, -0.5)
    ensures VertexAt(Vertices, BackFace + 2 * Stride) == Vec3(0.5, 0.5, -0.5)
  {
    assert Vertices[0] == -0.5;
    assert Vertices[1] == -0.5;
    assert Vertices[2] == -0.5;
    assert Vertices[6] == 0.5;
    assert Vertices[7] == -0.5;
    assert Vertices[8] == -0.5;
    assert Vertices[12] == 0.5;
    assert Vertices[13] == 0.5;
    assert Vertices[14] == -0.5;
  }

  /** The bottom face: the value of a point against its plane under
      any model matrix. */
  lemma BottomFaceValue(m: ModelMatrix, vertices: seq<real>, p: Vec3)
    requires CubeCorners(vertices)
    ensures CalculateValue(FacePlane(m, vertices, BottomFace), p) == (m.factor.z * m.factor.x) * (p.y - (m.offset.y - 0.5 * m.factor.y))
  {
  }

  /** The top face: the value of a point against its plane under
      any model matrix. */
  lemma TopFaceValue(m: ModelMatrix, vertices: seq<real>, p: Vec3)
    requires CubeCorners(vertices)
    ensures CalculateValue(FacePlane(m, vertices, TopFace), p) == (m.factor.x * m.factor.z) * ((m.offset.y + 0.5 * m.factor.y) - p.y)
  {
  }

  /** The left face: the value of a point against its plane under
      any model matrix. */
  lemma LeftFaceValue(m: ModelMatrix, vertices: seq<real>, p: Vec3)
    requires CubeCorners(vertices)
    ensures CalculateValue(FacePlane(m, vertices, LeftFace), p) == (m.factor.y * m.factor.z) * (p.x - (m.offset.x - 0.5 * m.factor.x))
  {
  }

  /** The right face: the value of a point against its plane under
      any model matrix. */
  lemma RightFaceValue(m: ModelMatrix, vertices: seq<real>, p: Vec3)
    requires CubeCorners(vertices)
    ensures CalculateValue(FacePlane(m, vertices, RightFace), p) == (m.factor.z * m.factor.y) * ((m.offset.x + 0.5 * m.factor.x) - p.x)
  {
  }

  /** The front face: the value of a point against its plane under
      any model matrix. */
  lemma FrontFaceValue(m: ModelMatrix, vertices: seq<real>, p: Vec3)
    requires CubeCorners(vertices)
    ensures CalculateValue(FacePlane(m, vertices, FrontFace), p) == (m.factor.x * m.factor.y) * ((m.offset.z + 0.5 * m.factor.z) - p.z)
  {
  }

  /** The back face: the value of a point against its plane under
      any model matrix. */
  lemma BackFaceValue(m: ModelMatrix, vertices: seq<real>, p: Vec3)
    requires CubeCorners(vertices)
    ensures CalculateValue(FacePlane(m, vertices, BackFace), p) == (m.factor.x * m.factor.y) * (p.z - (m.offset.z - 0.5 * m.factor.z))
  {
  }

  /** One pair of opposite faces: with positive edge-area factors k1 and k2,
      the values k1 * (y - lo) and k2 * (hi - y) pass the pair test exactly
      when lo <= y <= hi, whichever of the two planes comes first. */
  lemma SlabPair(first: Plane, second: Plane, p: Vec3, k1: real, k2: real, lo: real, hi: real, y: real)
    requires k1 > 0.0 && k2 > 0.0 && lo <= hi
    requires CalculateValue(first, p) == k1 * (y - lo) && CalculateValue(second, p) == k2 * (hi - y)
    ensures PairHolds(first, second, p) <==> lo <= y <= hi
    ensures PairHolds(second, first, p) <==> lo <= y <= hi
  {
    ScaledSign(k1, y - lo, CalculateValue(first, p));
    ScaledSign(k2, hi - y, CalculateValue(second, p));
  }

  /** The closed axis-aligned box with corners lo and hi. */
  predicate InBox(p: Vec3, lo: Vec3, hi: Vec3)
  {
    lo.x <= p.x <= hi.x && lo.y <= p.y <= hi.y && lo.z <= p.z <= hi.z
  }

  /** The lower and upper corners of the box that m places the unit cube on. */
  function BoxLow(m: ModelMatrix): Vec3 { Sub(m.offset, Scale(0.5, m.factor)) }

  function BoxHigh(m: ModelMatrix): Vec3 { Add(m.offset, Scale(0.5, m.factor)) }

  /** The bottom/top pair decides the y extent of the box. */
  lemma BottomTopPair(m: ModelMatrix, vertices: seq<real>, p: Vec3)
    requires CubeCorners(vertices)
    requires m.factor.x > 0.0 && m.factor.y > 0.0 && m.factor.z > 0.0
    ensures PairHolds(FacePlane(m, vertices, BottomFace), FacePlane(m, vertices, TopFace), p)
            <==> BoxLow(m).y <= p.y <= BoxHigh(m).y
  {
    var f, o := m.factor, m.offset;
    BottomFaceValue(m, vertices, p);
    TopFaceValue(m, vertices, p);
    MulPos(f.z, f.x);
    MulPos(f.x, f.z);
    SlabPair(FacePlane(m, vertices, BottomFace), FacePlane(m, vertices, TopFace), p,
             f.z * f.x, f.x * f.z, o.y - 0.5 * f.y, o.y + 0.5 * f.y, p.y);
  }

  /** The left/right pair decides the x extent of the box. */
  lemma LeftRightPair(m: ModelMatrix, vertices: seq<real>, p: Vec3)
    requires CubeCorners(vertices)
    requires m.factor.x > 0.0 && m.factor.y > 0.0 && m.factor.z > 0.0
    ensures PairHolds(FacePlane(m, vertices, LeftFace), FacePlane(m, vertices, RightFace), p)
            <==> BoxLow(m).x <= p.x <= BoxHigh(m).x
  {
    var f, o := m.factor, m.offset;
    LeftFaceValue(m, vertices, p);
    RightFaceValue(m, vertices, p);
    MulPos(f.y, f.z);
    MulPos(f.z, f.y);
    SlabPair(FacePlane(m, vertices, LeftFace), FacePlane(m, vertices, RightFace), p,
             f.y * f.z, f.z * f.y, o.x - 0.5 * f.x, o.x + 0.5 * f.x, p.x);
  }

  /** The front/back pair decides the z extent of the box; here the face on
      the high side comes first. */
  lemma FrontBackPair(m: ModelMatrix, vertices: seq<real>, p: Vec3)
    requires CubeCorners(vertices)
    requires m.factor.x > 0.0 && m.factor.y > 0.0 && m.factor.z > 0.0
    ensures PairHolds(FacePlane(m, vertices, FrontFace), FacePlane(m, vertices, BackFace), p)
            <==> BoxLow(m).z <= p.z <= BoxHigh(m).z
  {
    var f, o := m.factor, m.offset;
    FrontFaceValue(m, vertices, p);
    BackFaceValue(m, vertices, p);
    MulPos(f.x, f.y);
    SlabPair(FacePlane(m, vertices, BackFace), FacePlane(m, vertices, FrontFace), p,
             f.x * f.y, f.x * f.y, o.z - 0.5 * f.z, o.z + 0.5 * f.z, p.z);
  }

  /** For any translate/scale model matrix with positive factors, the six
      planes, tested pairwise, decide membership of the closed box the matrix
      places the unit cube on: centred at the offset, with edges the factors. */
  lemma BoxTest(m: ModelMatrix, vertices: seq<real>, p: Vec3)
    requires CubeCorners(vertices)
    requires m.factor.x > 0.0 && m.factor.y > 0.0 && m.factor.z > 0.0
    ensures AllPairsHold(FacePlanes(m, vertices), p) <==> InBox(p, BoxLow(m), BoxHigh(m))
  {
    BottomTopPair(m, vertices, p);
    LeftRightPair(m, vertices, p);
    FrontBackPair(m, vertices, p);
    ThreePairs(FacePlanes(m, vertices), p);
  }

  /** A six-plane list passes exactly when its three pairs do. */
  lemma ThreePairs(planes: seq<Plane>, p: Vec3)
    requires |planes| == 6
    ensures AllPairsHold(planes, p) <==>
            PairHolds(planes[0], planes[1], p) && PairHolds(planes[2], planes[3], p) && PairHolds(planes[4], planes[5], p)
  {
    var rest, last := planes[2..], planes[4..];
    assert rest[2..] == last && last[2..] == [];
    assert AllPairsHold(last, p) <==> PairHolds(planes[4], planes[5], p);
    assert AllPairsHold(rest, p) <==> PairHolds(planes[2], planes[3], p) && AllPairsHold(last, p);
  }

  /** The test over `planes` decides membership of the closed box [lo, hi]:
      it passes at exactly the points of the box. */
  ghost predicate DecidesBox(planes: seq<Plane>, lo: Vec3, hi: Vec3)
  {
    forall p :: AllPairsHold(planes, p) <==> InBox(p, lo, hi)
  }

  /** BoxTest for every point at once. */
  lemma BoxDecided(m: ModelMatrix, vertices: seq<real>)
    requires CubeCorners(vertices)
    requires m.factor.x > 0.0 && m.factor.y > 0.0 && m.factor.z > 0.0
    ensures DecidesBox(FacePlanes(m, vertices), BoxLow(m), BoxHigh(m))
  {
    forall p
      ensures AllPairsHold(FacePlanes(m, vertices), p) <==> InBox(p, BoxLow(m), BoxHigh(m))
    {
      BoxTest(m, vertices, p);
    }
  }

  /** End to end, for the scene's matrix and table: the box is drawn exactly
      when the camera is in [1.5, 2.5] on every axis. */
  lemma SceneDecided()
    ensures DecidesBox(FacePlanes(BoxModel(), Vertices), Vec3(1.5, 1.5, 1.5), Vec3(2.5, 2.5, 2.5))
  {
    TableCorners();
    BoxDecided(BoxModel(), Vertices);
  }

  /** At the box's centre (2, 2, 2) the box is drawn; at the origin it is
      not. */
  lemma SceneSamples()
    ensures AllPairsHold(FacePlanes(BoxModel(), Vertices), Vec3(2.0, 2.0, 2.0))
    ensures !AllPairsHold(FacePlanes(BoxModel(), Vertices), Origin)
  {
    SceneDecided();
    assert InBox(Vec3(2.0, 2.0, 2.0), Vec3(1.5, 1.5, 1.5), Vec3(2.5, 2.5, 2.5));
    assert !InBox(Origin, Vec3(1.5, 1.5, 1.5), Vec3(2.5, 2.5, 2.5));
  }

  /** The scene's gate, stated once: under the matrix BoxModel() returns,
      the box that `BoxBoundary.Frame` gates the draws on is [1.5, 2.5] on
      every axis. */
  lemma SceneGate(m: ModelMatrix, p: Vec3)
    requires m == ModelMatrix(Vec3(2.0, 2.0, 2.0), Vec3(1.0, 1.0, 1.0))
    ensures InBox(p, BoxLow(m), BoxHigh(m))
            <==> 1.5 <= p.x <= 2.5 && 1.5 <= p.y <= 2.5 && 1.5 <= p.z <= 2.5
  {
  }

  /** With a unit scale, as in the scene, the six planes are the distances
      to the box's faces, in the order they are pushed: y - low.y,
      high.y - y, x - low.x, high.x - x, high.z - z, z - low.z. For
      BoxModel() (low 1.5, high 2.5) these are y - 1.5, 2.5 - y, x - 1.5,
      2.5 - x, 2.5 - z and z - 1.5. */
  lemma UnitScalePlanes(m: ModelMatrix, vertices: seq<real>, p: Vec3)
    requires CubeCorners(vertices) && m.factor == Vec3(1.0, 1.0, 1.0)
    ensures CalculateValue(FacePlanes(m, vertices)[0], p) == p.y - BoxLow(m).y
    ensures CalculateValue(FacePlanes(m, vertices)[1], p) == BoxHigh(m).y - p.y
    ensures CalculateValue(FacePlanes(m, vertices)[2], p) == p.x - BoxLow(m).x
    ensures CalculateValue(FacePlanes(m, vertices)[3], p) == BoxHigh(m).x - p.x
    ensures CalculateValue(FacePlanes(m, vertices)[4], p) == BoxHigh(m).z - p.z
    ensures CalculateValue(FacePlanes(m, vertices)[5], p) == p.z - BoxLow(m).z
  {
    BottomFaceValue(m, vertices, p);
    TopFaceValue(m, vertices, p);
    LeftFaceValue(m, vertices, p);
    RightFaceValue(m, vertices, p);
    FrontFaceValue(m, vertices, p);
    BackFaceValue(m, vertices, p);
  }

  /** The render loop's state for the box: the plane list and the firstPass
      flag, with the vertex table and the model matrix the plane block reads.
      Valid: before the first frame the list is empty; after it, the list
      holds the six face planes of the table under the model matrix. */
  class BoxBoundary {
    /** The cube's vertex table. */
    const vertices: seq<real>
    /** The box's model matrix, translate(2) * scale(1), set again to the same
        value every frame. */
    const boxModel: ModelMatrix
    var planes: seq<Plane>
    var firstPass: bool

    ghost predicate Valid()
      reads this
    {
      && CubeCorners(vertices)
      && boxModel.factor.x > 0.0 && boxModel.factor.y > 0.0 && boxModel.factor.z > 0.0
      && (firstPass ==> planes == [])
      && (!firstPass ==> planes == FacePlanes(boxModel, vertices))
    }

    /** The vector starts empty and firstPass starts true. */
    constructor()
      ensures vertices == Vertices && boxModel == BoxModel()
      ensures firstPass && planes == []
      ensures Valid()
    {
      vertices := Vertices;
      boxModel := BoxModel();
      planes := [];
      firstPass := true;
      TableCorners();
    }

    /** The firstPass block: on the first pass, push the plane of each face,
        in the order bottom, top, left, right, front, back, through the three
        corners the table lists first for that face, mapped by `model`; then
        clear firstPass. On later passes nothing happens. */
    method BuildPlanes(model: ModelMatrix)
      requires |vertices| == 36 * Stride
      modifies this
      ensures !firstPass
      ensures old(firstPass) ==> planes == old(planes) + FacePlanes(model, vertices)
      ensures !old(firstPass) ==> planes == old(planes)
    {
      if firstPass {
        var a, b, c;
        a := Transform(model, VertexAt(vertices, BottomFace + 0 * Stride));
        b := Transform(model, VertexAt(vertices, BottomFace + 1 * Stride));
        c := Transform(model, VertexAt(vertices, BottomFace + 2 * Stride));
        planes := planes + [CalculatePlane(a, b, c)];

        a := Transform(model, VertexAt(vertices, TopFace + 0 * Stride));
        b := Transform(model, VertexAt(vertices, TopFace + 1 * Stride));
        c := Transform(model, VertexAt(vertices, TopFace + 2 * Stride));
        planes := planes + [CalculatePlane(a, b, c)];

        a := Transform(model, VertexAt(vertices, LeftFace + 0 * Stride));
        b := Transform(model, VertexAt(vertices, LeftFace + 1 * Stride));
        c := Transform(model, VertexAt(vertices, LeftFace + 2 * Stride));
        planes := planes + [CalculatePlane(a, b, c)];

        a := Transform(model, VertexAt(vertices, RightFace + 0 * Stride));
        b := Transform(model, VertexAt(vertices, RightFace + 1 * Stride));
        c := Transform(model, VertexAt(vertices, RightFace + 2 * Stride));
        planes := planes + [CalculatePlane(a, b, c)];

        a := Transform(model, VertexAt(vertices, FrontFace + 0 * Stride));
        b := Transform(model, VertexAt(vertices, FrontFace + 1 * Stride));
        c := Transform(model, VertexAt(vertices, FrontFace + 2 * Stride));
        planes := planes + [CalculatePlane(a, b, c)];

        a := Transform(model, VertexAt(vertices, BackFace + 0 * Stride));
        b := Transform(model, VertexAt(vertices, BackFace + 1 * Stride));
        c := Transform(model, VertexAt(vertices, BackFace + 2 * Stride));
        planes := planes + [CalculatePlane(a, b, c)];

        firstPass := false;
      }
    }

    /** The box part of one frame: run the firstPass block under the box's
        model matrix and gate the box and prop draws on isCameraInside. The
        first frame builds the six planes, later frames keep the list as it
        is, and the draws happen exactly when the camera is in the box the
        model matrix places ([1.5, 2.5] on every axis for BoxModel()). */
    method Frame(cameraPos: Vec3) returns (drawProps: bool)
      requires Valid()
      modifies this
      ensures Valid() && !firstPass
      ensures !old(firstPass) ==> planes == old(planes)
      ensures drawProps <==> InBox(cameraPos, BoxLow(boxModel), BoxHigh(boxModel))
    {
      BuildPlanes(boxModel);
      BoxDecided(boxModel, vertices);
      drawProps := IsCameraInside(planes, cameraPos);
    }

    /** The render loop over a run of camera positions, one per frame: after
        the first frame the list holds the six face planes and later frames
        never change it, and every frame draws exactly when its camera
        position is in the box. */
    method RenderLoop(cameraPositions: seq<Vec3>) returns (draws: seq<bool>)
      requires Valid()
      modifies this
      ensures Valid()
      ensures |cameraPositions| > 0 ==> !firstPass && planes == FacePlanes(boxModel, vertices)
      ensures |cameraPositions| == 0 ==> planes == old(planes) && firstPass == old(firstPass)
      ensures |draws| == |cameraPositions|
      ensures forall i :: 0 <= i < |draws| ==>
                (draws[i] <==> InBox(cameraPositions[i], BoxLow(boxModel), BoxHigh(boxModel)))
    {
      draws := [];
      var frame := 0;
      while frame < |cameraPositions|
        invariant 0 <= frame <= |cameraPositions|
        invariant Valid()
        invariant frame > 0 ==> !firstPass
        invariant frame == 0 ==> planes == old(planes) && firstPass == old(firstPass)
        invariant |draws| == frame
        invariant forall i :: 0 <= i < frame ==>
                    (draws[i] <==> InBox(cameraPositions[i], BoxLow(boxModel), BoxHigh(boxModel)))
      {
        var drawProps := Frame(cameraPositions[frame]);
        draws := draws + [drawProps];
        frame := frame + 1;
      }
    }
  }
}
