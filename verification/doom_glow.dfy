/** ADoomGlow: a four-point glow quad actor. Its state is a record; every
    operation returns the next state together with the calls it makes on the
    procedural mesh component, which this model records instead of
    rendering. Camera-dependent vector maths goes through the uninterpreted
    `Engine` operations. */
module DoomGlow {
  import opened Vectors
  import opened Topology
  import opened Wrappers

  /** A material asset; only its identity matters. */
  datatype Material = Material(id: nat)

  /** The actor's properties and buffers. Curves are identified by a handle. */
  datatype Glow = Glow(
    glowColor: LinearColor,
    fillColor: LinearColor,
    glowSize: real,
    glowSizeIgnoresScale: bool,
    quadSize: Vec2,
    showBottom: bool,
    glowMaterial: Option<Material>,
    quadMaterial: Option<Material>,
    angleFadeRange: Vec2,
    distanceFadeCurve: Option<nat>,
    quadPoints: seq<Vec3>,
    indexBuffer: seq<int>,
    vertexBuffer: seq<Vec3>,
    colorBuffer: seq<LinearColor>,
    quadVertexBuffer: seq<Vec3>,
    quadColorBuffer: seq<LinearColor>)

  /** A call on the procedural mesh component (normals and tangents are always empty). */
  datatype MeshCall =
    | ClearAllMeshSections
    | CreateMeshSection(section: nat, vertices: seq<Vec3>, triangles: seq<int>, uvs: seq<Vec2>, colors: seq<LinearColor>)
    | SetMaterial(section: nat, material: Material)
    | UpdateMeshSection(section: nat, vertices: seq<Vec3>, uvs: seq<Vec2>, colors: seq<LinearColor>)

  /** The state after an operation and the mesh calls it made, in order. */
  datatype Step = Step(state: Glow, calls: seq<MeshCall>)

  // ---------------------------------------------------------------------
  // Fixed buffers

  /** The quad's own two triangles. */
  const QuadIndices: seq<int> := [0, 1, 2, 0, 2, 3]

  /** Eight flap triangles, two per corner. */
  const FlapIndices: seq<int> :=
    [0, 5, 7, 0, 7, 1, 1, 8, 10, 1, 10, 2, 2, 11, 13, 2, 13, 3, 3, 14, 4, 3, 4, 0]

  /** Eight connector triangles, two per corner. */
  const ConnectionIndices: seq<int> :=
    [0, 4, 6, 0, 6, 5, 1, 7, 9, 1, 9, 8, 2, 10, 12, 2, 12, 11, 3, 13, 15, 3, 15, 14]

  /** The index buffer when quad and glow share one section. The source
      writes it as three commented groups: quad, flaps, connections. */
  function QuadAndGlowIndices(): (r: seq<int>)
    ensures |r| == 54
  {
    QuadIndices + FlapIndices + ConnectionIndices
  }

  /** The index buffer when the glow is drawn alone. The source writes it as
      the last two of those groups: flaps, connections. */
  function GlowOnlyIndices(): (r: seq<int>)
    ensures |r| == 48
  {
    FlapIndices + ConnectionIndices
  }

  const QuadUVs: seq<Vec2> := [Vec2(1.0, 1.0), Vec2(1.0, 0.0), Vec2(0.0, 0.0), Vec2(0.0, 1.0)]

  /** Triangle `t` of an index buffer. */
  function TriAt(s: seq<int>, t: int): Tri
    requires 0 <= t && 3 * t + 3 <= |s|
  {
    Tri(s[3 * t], s[3 * t + 1], s[3 * t + 2])
  }

  /** Triangles of a concatenation of whole-triangle buffers. */
  lemma TriAtAppend(a: seq<int>, b: seq<int>, t: int)
    requires |a| % 3 == 0 && 0 <= t && 3 * t + 3 <= |a| + |b|
    ensures 3 * t < |a| ==> TriAt(a + b, t) == TriAt(a, t)
    ensures 3 * t >= |a| ==> TriAt(a + b, t) == TriAt(b, t - |a| / 3)
  {
  }

  /** The shared buffer is the quad's two triangles followed by the glow-only
      buffer. */
  lemma SharedIsQuadThenGlowOnly()
    ensures QuadAndGlowIndices() == QuadIndices + GlowOnlyIndices()
    ensures QuadAndGlowIndices()[..6] == QuadIndices && QuadAndGlowIndices()[6..] == GlowOnlyIndices()
  {
    assert QuadIndices + FlapIndices + ConnectionIndices == QuadIndices + (FlapIndices + ConnectionIndices);
  }

  /** Both buffers only name the 16 vertices Tick writes, and the glow-only
      buffer names every one of them. */
  lemma FixedIndexBuffers()
    ensures |QuadAndGlowIndices()| == 54 && |GlowOnlyIndices()| == 48
    ensures forall k :: 0 <= k < |QuadAndGlowIndices()| ==> 0 <= QuadAndGlowIndices()[k] < 16
    ensures forall v :: 0 <= v < 16 ==> v in GlowOnlyIndices()
  {
    assert forall k :: 0 <= k < |FlapIndices| ==> 0 <= FlapIndices[k] < 16;
    assert forall k :: 0 <= k < |ConnectionIndices| ==> 0 <= ConnectionIndices[k] < 16;
    forall v | 0 <= v < 16
      ensures v in GlowOnlyIndices()
    {
      var at := [0, 5, 11, 17, 20, 1, 26, 2, 7, 32, 8, 13, 38, 14, 19, 44];
      assert GlowOnlyIndices()[at[v]] == v;
    }
  }

  lemma FlapGroupAt(t: int)
    requires 0 <= t < 8
    ensures TriAt(FlapIndices, t) == SwapFirst(FlapTri(4, t / 2, t % 2 == 1))
  {
  }

  lemma ConnectionGroupAt(t: int)
    requires 0 <= t < 8
    ensures TriAt(ConnectionIndices, t) == SwapFirst(ConnectorTri(4, t / 2, t % 2 == 1))
  {
  }

  lemma GlowOnlyFlapAt(t: int)
    requires 0 <= t < 8
    ensures TriAt(GlowOnlyIndices(), t) == SwapFirst(RingTris(4)[t])
  {
    assert TriAt(GlowOnlyIndices(), t) == TriAt(FlapIndices, t) by {
      TriAtAppend(FlapIndices, ConnectionIndices, t);
    }
    FlapGroupAt(t);
    assert RingTris(4)[t] == FlapTris(4)[t] == FlapTri(4, t / 2, t % 2 == 1);
  }

  lemma GlowOnlyConnectionAt(t: int)
    requires 8 <= t < 16
    ensures TriAt(GlowOnlyIndices(), t) == SwapFirst(RingTris(4)[t])
  {
    var u := t - 8;
    assert TriAt(GlowOnlyIndices(), t) == TriAt(ConnectionIndices, u) by {
      TriAtAppend(FlapIndices, ConnectionIndices, t);
    }
    ConnectionGroupAt(u);
    assert RingTris(4)[t] == ConnectorTris(4)[u] == ConnectorTri(4, u / 2, u % 2 == 1);
  }

  lemma GlowOnlyAt(t: int)
    requires 0 <= t < 16
    ensures TriAt(GlowOnlyIndices(), t) == SwapFirst(RingTris(4)[t])
  {
    if t < 8 {
      GlowOnlyFlapAt(t);
    } else {
      GlowOnlyConnectionAt(t);
    }
  }

  /** Each triangle of the hard-coded glow-only buffer has the corners of the
      split generator's ring triangle at the same position for a four-point
      polygon, wound the other way. */
  lemma GlowOnlyReversesRing()
    ensures forall t :: 0 <= t < 16 ==>
      && TriAt(GlowOnlyIndices(), t) == SwapFirst(RingTris(4)[t])
      && OppositeWinding(RingTris(4)[t], TriAt(GlowOnlyIndices(), t))
  {
    forall t | 0 <= t < 16
      ensures TriAt(GlowOnlyIndices(), t) == SwapFirst(RingTris(4)[t])
      ensures OppositeWinding(RingTris(4)[t], TriAt(GlowOnlyIndices(), t))
    {
      GlowOnlyAt(t);
    }
  }

  lemma QuadAt(t: int)
    requires 0 <= t < 2
    ensures TriAt(QuadAndGlowIndices(), t) == SwapFirst(GlowTris(4)[t])
  {
    SharedIsQuadThenGlowOnly();
    TriAtAppend(QuadIndices, GlowOnlyIndices(), t);
    assert GlowTris(4)[t] == FanTris(4)[t];
  }

  lemma QuadAndGlowAt(t: int)
    requires 2 <= t < 18
    ensures TriAt(QuadAndGlowIndices(), t) == SwapFirst(GlowTris(4)[t])
  {
    SharedIsQuadThenGlowOnly();
    TriAtAppend(QuadIndices, GlowOnlyIndices(), t);
    GlowOnlyAt(t - 2);
    assert GlowTris(4)[t] == RingTris(4)[t - 2];
  }

  /** Each triangle of the hard-coded shared buffer has the corners of the
      general generator's triangle at the same position for a four-point
      polygon, wound the other way. */
  lemma FixedBuffersReverseGenerated()
    ensures forall t :: 0 <= t < 18 ==>
      && TriAt(QuadAndGlowIndices(), t) == SwapFirst(GlowTris(4)[t])
      && OppositeWinding(GlowTris(4)[t], TriAt(QuadAndGlowIndices(), t))
  {
    forall t | 0 <= t < 18
      ensures TriAt(QuadAndGlowIndices(), t) == SwapFirst(GlowTris(4)[t])
      ensures OppositeWinding(GlowTris(4)[t], TriAt(QuadAndGlowIndices(), t))
    {
      if t < 2 {
        QuadAt(t);
      } else {
        QuadAndGlowAt(t);
      }
    }
  }

  // ---------------------------------------------------------------------
  // State and setters

  /** The buffer discipline every operation keeps: four quad points, sixteen
      glow vertices and colours, four separate-quad vertices and colours, and
      either no index buffer yet or one of the two fixed ones. */
  predicate Valid(s: Glow) {
    && |s.quadPoints| == 4
    && |s.vertexBuffer| == 16 && |s.colorBuffer| == 16
    && |s.quadVertexBuffer| == 4 && |s.quadColorBuffer| == 4
    && (s.indexBuffer == [] || s.indexBuffer == QuadAndGlowIndices() || s.indexBuffer == GlowOnlyIndices())
  }

  /** The actor as constructed: `found` is the default material if the asset
      lookup succeeded; it is used for both glow and quad. */
  function Construct(found: Option<Material>): (s: Glow)
    ensures Valid(s)
    ensures s.glowMaterial == s.quadMaterial == found
    ensures s.indexBuffer == []
  {
    Glow(
      glowColor := LinearColor(0.0, 1.0, 1.0, 1.0),
      fillColor := LinearColor(1.0, 1.0, 1.0, 1.0),
      glowSize := 30.0,
      glowSizeIgnoresScale := false,
      quadSize := Vec2(100.0, 100.0),
      showBottom := false,
      glowMaterial := found,
      quadMaterial := found,
      angleFadeRange := Vec2(0.001, 0.1),
      distanceFadeCurve := None,
      quadPoints := seq(4, _ => Zero3),
      indexBuffer := [],
      vertexBuffer := seq(16, _ => Zero3),
      colorBuffer := seq(16, _ => Transparent),
      quadVertexBuffer := seq(4, _ => Zero3),
      quadColorBuffer := seq(4, _ => Transparent))
  }

  /** The corners of an axis-aligned `x` by `y` rectangle centred on the origin. */
  function RectCorners(x: real, y: real): seq<Vec3> {
    [Vec3(-x / 2.0, -y / 2.0, 0.0), Vec3(x / 2.0, -y / 2.0, 0.0),
     Vec3(x / 2.0, y / 2.0, 0.0), Vec3(-x / 2.0, y / 2.0, 0.0)]
  }

  /** The quad points follow the quad size only when both sides are positive. */
  function UpdateQuadPoints(s: Glow): (r: Glow)
    ensures s.quadSize.x > 0.0 && s.quadSize.y > 0.0 ==> r == s.(quadPoints := RectCorners(s.quadSize.x, s.quadSize.y))
    ensures !(s.quadSize.x > 0.0 && s.quadSize.y > 0.0) ==> r == s
    ensures Valid(s) ==> Valid(r)
  {
    if s.quadSize.x > 0.0 && s.quadSize.y > 0.0 then
      s.(quadPoints := RectCorners(s.quadSize.x, s.quadSize.y))
    else
      s
  }

  /** Updating the points twice is updating them once. */
  lemma UpdateQuadPointsIdempotent(s: Glow)
    ensures UpdateQuadPoints(UpdateQuadPoints(s)) == UpdateQuadPoints(s)
  {
  }

  /** The sized quad is an `x` by `y` rectangle in the z=0 plane, centred on
      the origin and wound so that its normal points along +z. */
  lemma RectCornersGeometry(x: real, y: real)
    requires x > 0.0 && y > 0.0
    ensures var q := RectCorners(x, y);
      && Sub(q[1], q[0]) == Vec3(x, 0.0, 0.0)
      && Sub(q[3], q[0]) == Vec3(0.0, y, 0.0)
      && Sub(q[2], q[1]) == Vec3(0.0, y, 0.0)
      && QuadCenter(q) == Zero3
      && Cross(Sub(q[1], q[0]), Sub(q[2], q[0])) == Vec3(0.0, 0.0, x * y)
  {
  }

  /** Stores the size and re-derives the quad points from it. */
  function SetQuadSize(s: Glow, size: Vec2): (r: Glow)
    ensures r.quadSize == size
    ensures size.x > 0.0 && size.y > 0.0 ==> r.quadPoints == RectCorners(size.x, size.y)
    ensures !(size.x > 0.0 && size.y > 0.0) ==> r.quadPoints == s.quadPoints
    ensures r == s.(quadSize := size, quadPoints := r.quadPoints)
    ensures Valid(s) ==> Valid(r)
  {
    UpdateQuadPoints(s.(quadSize := size))
  }

  /** The outcome of a setter guarded by the engine's `ensure`: the next
      state, and whether the guard failed (which the engine reports as a
      non-fatal error before the setter returns). */
  datatype Guarded = Guarded(state: Glow, ensureFailed: bool)

  /** Manual points: anything but exactly four points fails the guard and
      changes nothing; four points replace the quad and zero the quad size. */
  function SetQuadPoints(s: Glow, points: seq<Vec3>): (r: Guarded)
    ensures r.ensureFailed <==> |points| != 4
    ensures r.ensureFailed ==> r.state == s
    ensures !r.ensureFailed ==> r.state == s.(quadPoints := points, quadSize := Vec2(0.0, 0.0))
    ensures Valid(s) ==> Valid(r.state)
  {
    if |points| != 4 then Guarded(s, true)
    else Guarded(s.(quadPoints := points, quadSize := Vec2(0.0, 0.0)), false)
  }

  /** The quad is drawn in its own section exactly when it has a material
      that differs from the glow's. */
  predicate DrawsQuadSeparately(s: Glow) {
    s.quadMaterial.Some? && s.quadMaterial != s.glowMaterial
  }

  /** ADoomGlow::Init: refresh the quad points, pick the index buffer, and
      recreate the mesh sections. */
  function Init(s: Glow): (r: Step)
    ensures Valid(s) ==> Valid(r.state)
    ensures |r.state.indexBuffer| == 54 <==> s.glowMaterial == s.quadMaterial
    ensures |r.state.indexBuffer| == 48 <==> s.glowMaterial != s.quadMaterial
    ensures r.state == UpdateQuadPoints(s).(indexBuffer := r.state.indexBuffer)
    ensures |r.calls| >= 1 && r.calls[0] == ClearAllMeshSections
  {
    var s1 := UpdateQuadPoints(s);
    var indices := if s1.glowMaterial == s1.quadMaterial then QuadAndGlowIndices() else GlowOnlyIndices();
    var s2 := s1.(indexBuffer := indices);
    var glowCalls :=
      if s2.glowMaterial.Some? then
        [CreateMeshSection(0, s2.vertexBuffer, indices, [], s2.colorBuffer), SetMaterial(0, s2.glowMaterial.value)]
      else [];
    var quadCalls :=
      if DrawsQuadSeparately(s2) then
        [CreateMeshSection(1, s2.quadVertexBuffer, [0, 1, 2, 0, 2, 3], QuadUVs, s2.quadColorBuffer),
         SetMaterial(1, s2.quadMaterial.value)]
      else [];
    Step(s2, [ClearAllMeshSections] + glowCalls + quadCalls)
  }

  predicate Creates(calls: seq<MeshCall>, section: nat) {
    exists c :: c in calls && c.CreateMeshSection? && c.section == section
  }

  /** The section `section` is created with triangle list `triangles` and given `material`. */
  predicate CreatesWith(calls: seq<MeshCall>, section: nat, triangles: seq<int>, material: Material) {
    && (exists c :: c in calls && c.CreateMeshSection? && c.section == section && c.triangles == triangles)
    && SetMaterial(section, material) in calls
  }

  /** Which sections Init creates, with which triangles and materials: the glow
      section exactly when there is a glow material, the quad section exactly
      when the quad has a different, non-null material. */
  lemma InitSections(s: Glow)
    ensures var r := Init(s);
      && (Creates(r.calls, 0) <==> s.glowMaterial.Some?)
      && (Creates(r.calls, 1) <==> DrawsQuadSeparately(s))
      && (forall c :: c in r.calls && c.CreateMeshSection? ==> c.section == 0 || c.section == 1)
      && (s.glowMaterial.Some? ==> CreatesWith(r.calls, 0, r.state.indexBuffer, s.glowMaterial.value))
      && (DrawsQuadSeparately(s) ==> CreatesWith(r.calls, 1, QuadIndices, s.quadMaterial.value))
  {
  }

  /** Whether the quad itself is drawn: its triangles head the glow section, or it has its own. */
  predicate DrawsQuad(calls: seq<MeshCall>) {
    exists c :: c in calls && c.CreateMeshSection? && |c.triangles| >= 6 && c.triangles[..6] == QuadIndices
  }

  /** The quad is drawn after Init exactly when the quad material is non-null
      (with a null glow material and a null quad material nothing is drawn). */
  lemma InitDrawsQuadIffQuadMaterial(s: Glow)
    ensures DrawsQuad(Init(s).calls) <==> s.quadMaterial.Some?
  {
    var r := Init(s);
    FixedIndexBuffers();
    if s.quadMaterial.Some? {
      if s.quadMaterial == s.glowMaterial {
        assert r.calls[1].triangles[..6] == QuadIndices;
      } else {
        var c := r.calls[|r.calls| - 2];
        assert c.triangles[..6] == QuadIndices;
      }
    } else {
      forall c | c in r.calls && c.CreateMeshSection?
        ensures !(|c.triangles| >= 6 && c.triangles[..6] == QuadIndices)
      {
        assert c.triangles == GlowOnlyIndices();
        assert GlowOnlyIndices()[..6] != QuadIndices by {
          assert GlowOnlyIndices()[1] == FlapIndices[1] == 5;
        }
      }
    }
  }

  /** ADoomGlow::SetMaterials: the current pair is a no-op; any other pair is
      assigned and the actor re-initialised. */
  function SetMaterials(s: Glow, glow: Option<Material>, quad: Option<Material>): (r: Step)
    ensures r.calls == [] <==> glow == s.glowMaterial && quad == s.quadMaterial
    ensures r.calls == [] ==> r.state == s
    ensures r.state.glowMaterial == glow && r.state.quadMaterial == quad
    ensures !(glow == s.glowMaterial && quad == s.quadMaterial) ==>
      && r == Init(s.(glowMaterial := glow, quadMaterial := quad))
      && r.calls[0] == ClearAllMeshSections
      && (|r.state.indexBuffer| == 54 <==> glow == quad)
    ensures Valid(s) ==> Valid(r.state)
  {
    if glow == s.glowMaterial && quad == s.quadMaterial then Step(s, [])
    else Init(s.(glowMaterial := glow, quadMaterial := quad))
  }

  /** Setting the same materials again does nothing. */
  lemma SetMaterialsIdempotent(s: Glow, glow: Option<Material>, quad: Option<Material>)
    ensures var r := SetMaterials(s, glow, quad);
      SetMaterials(r.state, glow, quad) == Step(r.state, [])
  {
  }

  /** Manually set points survive a later Init and a later material change,
      because setting them zeroes the quad size. */
  lemma ManualPointsSurvive(s: Glow, points: seq<Vec3>, glow: Option<Material>, quad: Option<Material>)
    requires |points| == 4
    ensures Init(SetQuadPoints(s, points).state).state.quadPoints == points
    ensures SetMaterials(SetQuadPoints(s, points).state, glow, quad).state.quadPoints == points
  {
  }

  // ---------------------------------------------------------------------
  // Tick

  /** Quad points in slots 0..3: corners 1 and 3 swapped when flipped. */
  function OrientedQuad<T>(q: seq<T>, flip: bool): (r: seq<T>)
    requires |q| == 4
    ensures |r| == 4
  {
    if flip then [q[0], q[3], q[2], q[1]] else q
  }

  /** Orienting undoes itself and only trades corners 1 and 3. */
  lemma OrientedQuadInvolution<T>(q: seq<T>, flip: bool)
    requires |q| == 4
    ensures OrientedQuad(OrientedQuad(q, flip), flip) == q
    ensures OrientedQuad(q, flip)[0] == q[0] && OrientedQuad(q, flip)[2] == q[2]
    ensures flip ==> OrientedQuad(q, flip)[1] == q[3] && OrientedQuad(q, flip)[3] == q[1]
  {
    if flip {
      assert OrientedQuad(OrientedQuad(q, flip), flip) == [q[0], q[1], q[2], q[3]];
      assert q == [q[0], q[1], q[2], q[3]];
    }
  }

  /** Orienting keeps the four corners. */
  lemma OrientedQuadPermutes<T>(q: seq<T>, flip: bool)
    requires |q| == 4
    ensures multiset(OrientedQuad(q, flip)) == multiset(q)
  {
    if flip {
      calc {
        multiset(OrientedQuad(q, flip));
        { assert OrientedQuad(q, flip) == [q[0]] + [q[3]] + [q[2]] + [q[1]]; }
        multiset([q[0]]) + multiset([q[3]]) + multiset([q[2]]) + multiset([q[1]]);
        multiset([q[0]]) + multiset([q[1]]) + multiset([q[2]]) + multiset([q[3]]);
        { assert q == [q[0]] + [q[1]] + [q[2]] + [q[3]]; }
        multiset(q);
      }
    }
  }

  /** Which source corner lands in slot `k`. */
  function OrientIndex(k: int, flip: bool): int {
    if flip && k == 1 then 3 else if flip && k == 3 then 1 else k
  }

  /** Slot `k` of an oriented quad holds corner `OrientIndex(k, flip)`: the
      vertices and the UVs are permuted alike, so every corner keeps its UV. */
  lemma OrientedQuadAt<T>(q: seq<T>, flip: bool, k: int)
    requires |q| == 4 && 0 <= k < 4
    ensures 0 <= OrientIndex(k, flip) < 4
    ensures OrientedQuad(q, flip)[k] == q[OrientIndex(k, flip)]
  {
  }

  /** Drawing the quad's two triangles over the flipped corners draws the
      original quad with the opposite winding, so its front faces the other
      side. */
  lemma FlipReversesQuadWinding()
    ensures forall t :: 0 <= t < 2 ==>
      var u := TriAt(QuadIndices, t);
      var flipped := Tri(OrientIndex(u.a, true), OrientIndex(u.b, true), OrientIndex(u.c, true));
      OppositeWinding(TriAt(QuadIndices, 1 - t), flipped)
  {
    assert TriAt(QuadIndices, 0) == Tri(0, 1, 2);
    assert TriAt(QuadIndices, 1) == Tri(0, 2, 3);
  }

  function QuadNormal(eng: Engine, q: seq<Vec3>): Vec3
    requires |q| == 4
  {
    eng.unsafeNormal(Cross(Sub(q[1], q[0]), Sub(q[2], q[0])))
  }

  function QuadCenter(q: seq<Vec3>): Vec3
    requires |q| == 4
  {
    Scale(0.25, Add(Add(Add(q[0], q[1]), q[2]), q[3]))
  }

  /** What one frame computes from the quad points and the camera. */
  datatype View = View(
    dot: real,          // cosine between the view direction to the centre and the quad normal
    flip: bool,         // seen from behind and drawn two-sided
    sign: real,         // push-direction sign, negated when flipped
    alpha: real,        // angle fade
    base: seq<Vec3>,    // slots 0..3
    eye: seq<Vec3>,     // camera-to-corner directions, world space
    push: real)         // push distance

  function ViewOf(s: Glow, eng: Engine, camera: Vec3): (v: View)
    requires Valid(s)
    ensures |v.base| == 4 && |v.eye| == 4
    ensures v.flip <==> v.dot < 0.0 && s.showBottom
    ensures v.base == OrientedQuad(s.quadPoints, v.flip)
    ensures v.flip ==> v.sign == 1.0
    ensures !v.flip ==> v.sign == Sign(v.dot)
  {
    var q := s.quadPoints;
    var center := QuadCenter(q);
    var dot := Dot(eng.safeNormal(Sub(center, camera)), QuadNormal(eng, q));
    var flip := dot < 0.0 && s.showBottom;
    var base := OrientedQuad(q, flip);
    View(
      dot,
      flip,
      if flip then -Sign(dot) else Sign(dot),
      eng.mappedRangeClamped(s.angleFadeRange, Abs(dot)),
      base,
      EyeDirs(eng, base, camera),
      PushDistance(s, eng, camera, center))
  }

  /** Camera-to-corner directions in world space. */
  function EyeDirs(eng: Engine, base: seq<Vec3>, camera: Vec3): (e: seq<Vec3>)
    requires |base| == 4
    ensures |e| == 4
    ensures forall k :: 0 <= k < 4 ==> e[k] == eng.normalize(eng.toWorldVector(Sub(base[k], camera)))
  {
    seq(4, k requires 0 <= k < 4 => eng.normalize(eng.toWorldVector(Sub(base[k], camera))))
  }

  function PushDistance(s: Glow, eng: Engine, camera: Vec3, center: Vec3): real {
    match s.distanceFadeCurve
    case None => s.glowSize
    case Some(curve) => s.glowSize * eng.curveValue(curve, eng.distance(camera, center))
  }

  /** The three push directions of corner `i`: across its previous edge, across
      its next edge, and between the two. */
  function PushDirs(eng: Engine, sign: real, eye: seq<Vec3>, i: int): (d: seq<Vec3>)
    requires |eye| == 4 && 0 <= i < 4
    ensures |d| == 3
    ensures d[0] == Scale(sign, eng.safeNormal(Cross(eye[i], eye[if i == 0 then 3 else i - 1])))
    ensures d[1] == Scale(sign, eng.safeNormal(Cross(eye[if i == 3 then 0 else i + 1], eye[i])))
    ensures d[2] == eng.safeNormal(Add(d[0], d[1]))
  {
    var d0 := Scale(sign, eng.safeNormal(Cross(eye[i], eye[(i + 3) % 4])));
    var d1 := Scale(sign, eng.safeNormal(Cross(eye[(i + 1) % 4], eye[i])));
    [d0, d1, eng.safeNormal(Add(d0, d1))]
  }

  function ToLocal(s: Glow, eng: Engine, v: Vec3): Vec3 {
    if s.glowSizeIgnoresScale then eng.toLocalVector(v) else eng.toLocalVectorNoScale(v)
  }

  /** Flap point `j` of corner `i`. */
  function FlapVertex(s: Glow, eng: Engine, base: seq<Vec3>, eye: seq<Vec3>, sign: real, push: real, i: int, j: int): Vec3
    requires |base| == 4 && |eye| == 4 && 0 <= i < 4 && 0 <= j < 3
  {
    Add(base[i], ToLocal(s, eng, Scale(push, PushDirs(eng, sign, eye, i)[j])))
  }

  function FillColorOf(s: Glow, alpha: real): LinearColor {
    LinearColor(s.fillColor.r, s.fillColor.g, s.fillColor.b, alpha * s.fillColor.a)
  }

  function EdgeColorOf(s: Glow): LinearColor {
    LinearColor(s.glowColor.r, s.glowColor.g, s.glowColor.b, 0.0)
  }

  /** Slots 0..3 receive the quad points. */
  method WriteBaseSlots(buf: seq<Vec3>, q: seq<Vec3>) returns (out: seq<Vec3>)
    requires |buf| == 16 && |q| == 4
    ensures |out| == 16 && out[..4] == q && out[4..] == buf[4..]
  {
    out := buf;
    var i := 0;
    while i < 4
      invariant 0 <= i <= 4 && |out| == 16
      invariant out[..i] == q[..i] && out[4..] == buf[4..]
    {
      out := out[i := q[i]];
      i := i + 1;
    }
  }

  /** The flap writes `4+j+3i` for corner `i < 4` and push direction `j < 3`:
      they fill slots 4..15, each with the flap point of the slot's own
      corner and direction, and leave slots 0..3 alone. */
  method WriteFlapSlots(s: Glow, eng: Engine, buf: seq<Vec3>, eye: seq<Vec3>, sign: real, push: real)
    returns (out: seq<Vec3>)
    requires |buf| == 16 && |eye| == 4
    ensures |out| == 16 && out[..4] == buf[..4]
    ensures forall k :: 4 <= k < 16 ==>
      out[k] == FlapVertex(s, eng, buf[..4], eye, sign, push, SlotAt(4, k).i, SlotAt(4, k).w)
  {
    out := buf;
    var i := 0;
    while i < 4
      invariant 0 <= i <= 4 && |out| == 16 && out[..4] == buf[..4]
      invariant forall k :: 4 <= k < 4 + 3 * i ==>
        out[k] == FlapVertex(s, eng, buf[..4], eye, sign, push, SlotAt(4, k).i, SlotAt(4, k).w)
    {
      var dirs := PushDirs(eng, sign, eye, i);
      var j := 0;
      while j < 3
        invariant 0 <= j <= 3 && |out| == 16 && out[..4] == buf[..4]
        invariant forall k :: 4 <= k < 4 + 3 * i + j ==>
          out[k] == FlapVertex(s, eng, buf[..4], eye, sign, push, SlotAt(4, k).i, SlotAt(4, k).w)
      {
        SlotIndexAt(4, Offset(i, j));
        out := out[4 + j + 3 * i := Add(out[i], ToLocal(s, eng, Scale(push, dirs[j])))];
        j := j + 1;
      }
      i := i + 1;
    }
  }

  /** Colours: the fill colour with the faded alpha on slots 0..3, the glow
      colour with zero alpha on the twelve rim slots. */
  method WriteColors(s: Glow, buf: seq<LinearColor>, alpha: real) returns (out: seq<LinearColor>)
    requires |buf| == 16
    ensures |out| == 16
    ensures forall k :: 0 <= k < 4 ==> out[k] == FillColorOf(s, alpha)
    ensures forall k :: 4 <= k < 16 ==> out[k] == EdgeColorOf(s) && out[k].a == 0.0
  {
    var filled := LinearColor(s.fillColor.r, s.fillColor.g, s.fillColor.b, alpha * s.fillColor.a);
    var edge := LinearColor(s.glowColor.r, s.glowColor.g, s.glowColor.b, 0.0);
    out := buf;
    var i := 0;
    while i < 4
      invariant 0 <= i <= 4 && |out| == 16
      invariant forall k :: 0 <= k < i ==> out[k] == filled
    {
      out := out[i := filled];
      i := i + 1;
    }
    while i < 16
      invariant 4 <= i <= 16 && |out| == 16
      invariant forall k :: 0 <= k < 4 ==> out[k] == filled
      invariant forall k :: 4 <= k < i ==> out[k] == edge
    {
      out := out[i := edge];
      i := i + 1;
    }
  }

  /** The first half of a frame: the quad points go to slots 0..3, the
      normal, centre and view angle are taken from them, and on a flip
      corners 1 and 3 trade places. The view returned is the one `ViewOf`
      describes. */
  method FrameView(s: Glow, eng: Engine, cam: Vec3) returns (vertices: seq<Vec3>, v: View)
    requires Valid(s)
    ensures v == ViewOf(s, eng, cam)
    ensures |vertices| == 16 && vertices[..4] == v.base && vertices[4..] == s.vertexBuffer[4..]
  {
    vertices := WriteBaseSlots(s.vertexBuffer, s.quadPoints);
    var q := vertices[..4];
    assert q == s.quadPoints;
    var center := QuadCenter(q);
    var dot := Dot(eng.safeNormal(Sub(center, cam)), QuadNormal(eng, q));
    var sign := Sign(dot);
    var alpha := eng.mappedRangeClamped(s.angleFadeRange, Abs(dot));
    var flip := dot < 0.0 && s.showBottom;
    if flip {
      vertices := vertices[1 := vertices[3]][3 := vertices[1]];
      sign := -sign;
    }
    var base := vertices[..4];
    assert base == OrientedQuad(q, flip);
    var eye := EyeDirs(eng, base, cam);
    var push := s.glowSize;
    if s.distanceFadeCurve.Some? {
      push := push * eng.curveValue(s.distanceFadeCurve.value, eng.distance(cam, center));
    }
    assert push == PushDistance(s, eng, cam, center);
    v := View(dot, flip, sign, alpha, base, eye, push);
  }

  /** The separate quad section copies slots 0..3 of the glow vertices and
      paints all four corners with the fill colour. */
  method WriteQuadSlots(quadVertices: seq<Vec3>, quadColors: seq<LinearColor>, vertices: seq<Vec3>, filled: LinearColor)
    returns (qv: seq<Vec3>, qc: seq<LinearColor>)
    requires |quadVertices| == 4 && |quadColors| == 4 && |vertices| == 16
    ensures qv == vertices[..4]
    ensures qc == seq(4, _ => filled)
  {
    qv, qc := quadVertices, quadColors;
    var i := 0;
    while i < 4
      invariant 0 <= i <= 4 && |qv| == 4 && |qc| == 4
      invariant qv[..i] == vertices[..i]
      invariant forall k :: 0 <= k < i ==> qc[k] == filled
    {
      qv := qv[i := vertices[i]];
      qc := qc[i := filled];
      i := i + 1;
    }
  }

  /** The glow section's sixteen vertices and colours for view `v`: slots
      0..3 hold the oriented quad, slots 4..15 the flap points of their
      slot's corner and direction; the quad corners get the faded fill colour
      and the rim the transparent glow colour. */
  predicate GlowFrame(s: Glow, eng: Engine, v: View, vertices: seq<Vec3>, colors: seq<LinearColor>)
    requires |s.quadPoints| == 4 && |v.base| == 4 && |v.eye| == 4
  {
    && |vertices| == 16 && |colors| == 16
    && vertices[..4] == OrientedQuad(s.quadPoints, v.flip)
    && (forall k :: 4 <= k < 16 ==>
          vertices[k] == FlapVertex(s, eng, v.base, v.eye, v.sign, v.push, SlotAt(4, k).i, SlotAt(4, k).w))
    && (forall k :: 0 <= k < 4 ==> colors[k] == FillColorOf(s, v.alpha))
    && (forall k :: 4 <= k < 16 ==> colors[k] == EdgeColorOf(s) && colors[k].a == 0.0)
  }

  /** One frame's glow section, computed in the order the engine code does it. */
  method WriteGlowSection(s: Glow, eng: Engine, cam: Vec3)
    returns (vertices: seq<Vec3>, colors: seq<LinearColor>, v: View)
    requires Valid(s)
    ensures v == ViewOf(s, eng, cam)
    ensures GlowFrame(s, eng, v, vertices, colors)
  {
    vertices, v := FrameView(s, eng, cam);
    vertices := WriteFlapSlots(s, eng, vertices, v.eye, v.sign, v.push);
    colors := WriteColors(s, s.colorBuffer, v.alpha);
  }

  /** ADoomGlow::Tick. Without a camera or a glow material nothing happens.
      Otherwise the glow section's vertices and colours are refreshed in place
      (and the separate quad section's, when there is one); no buffer changes
      length and nothing else in the state changes. */
  method Tick(s: Glow, eng: Engine, camera: Option<Vec3>) returns (r: Step)
    requires Valid(s)
    ensures Valid(r.state)
    ensures camera.None? || s.glowMaterial.None? ==> r == Step(s, [])
    ensures camera.Some? && s.glowMaterial.Some? ==>
      var v := ViewOf(s, eng, camera.value);
      var st := r.state;
      && st == s.(vertexBuffer := st.vertexBuffer, colorBuffer := st.colorBuffer,
                  quadVertexBuffer := st.quadVertexBuffer, quadColorBuffer := st.quadColorBuffer)
      && GlowFrame(s, eng, v, st.vertexBuffer, st.colorBuffer)
      && |r.calls| >= 1
      && r.calls[0] == UpdateMeshSection(0, st.vertexBuffer, [], st.colorBuffer)
    ensures camera.Some? && s.glowMaterial.Some? && DrawsQuadSeparately(s) ==>
      var v := ViewOf(s, eng, camera.value);
      var st := r.state;
      && st.quadVertexBuffer == st.vertexBuffer[..4]
      && st.quadColorBuffer == seq(4, _ => FillColorOf(s, v.alpha))
      && r.calls == [UpdateMeshSection(0, st.vertexBuffer, [], st.colorBuffer),
                     UpdateMeshSection(1, st.quadVertexBuffer, OrientedQuad(QuadUVs, v.flip), st.quadColorBuffer)]
    ensures camera.Some? && s.glowMaterial.Some? && !DrawsQuadSeparately(s) ==>
      && r.state.quadVertexBuffer == s.quadVertexBuffer
      && r.state.quadColorBuffer == s.quadColorBuffer
      && |r.calls| == 1
  {
    if camera.None? {
      return Step(s, []);
    }
    if s.glowMaterial.None? {
      return Step(s, []);
    }
    var vertices, colors, v := WriteGlowSection(s, eng, camera.value);
    var st := s.(vertexBuffer := vertices, colorBuffer := colors);
    var calls := [UpdateMeshSection(0, vertices, [], colors)];
    if s.quadMaterial.Some? && s.quadMaterial != s.glowMaterial {
      var quadVertices, quadColors := WriteQuadSlots(s.quadVertexBuffer, s.quadColorBuffer, vertices, FillColorOf(s, v.alpha));
      var uvs := QuadUVs;
      if v.flip {
        uvs := uvs[1 := uvs[3]][3 := uvs[1]];
      }
      assert uvs == OrientedQuad(QuadUVs, v.flip);
      st := st.(quadVertexBuffer := quadVertices, quadColorBuffer := quadColors);
      calls := calls + [UpdateMeshSection(1, quadVertices, uvs, quadColors)];
    }
    return Step(st, calls);
  }
}
