/** UGlowUtils: builds the glow mesh of an N-point polygon, either as one
    mesh (fan fill plus glow ring) or split into a fill mesh and a glow-ring
    mesh. The loops below write the buffers in the order and at the
    positions the generators do; their contracts tie the result to the
    reference layout defined by `GlowMesh`. */
module GlowUtils {
  import opened Vectors
  import opened Topology
  import opened Wrappers

  /** One mesh section's buffers: index buffer, positions, colours and two UV channels. */
  datatype MeshBuffers = MeshBuffers(
    indices: seq<int>,
    vertices: seq<Vec3>,
    colors: seq<LinearColor>,
    uv1: seq<Vec2>,
    uv2: seq<Vec2>)

  datatype GlowError = TooFewPoints(count: nat)

  /** What the uninitialised memory behind one mesh's five out-arrays reads
      as: element `k` of such an array grown without initialisation holds the
      matching function's value at `k`. */
  datatype Memory = Memory(
    indices: nat -> int,
    vertices: nat -> Vec3,
    colors: nat -> LinearColor,
    uv1: nat -> Vec2,
    uv2: nat -> Vec2)

  /** An out-array after `SetNumUninitialized(n)`: the first `min(old length, n)`
      elements survive and the rest is whatever memory held. */
  function ResizeUninitialized<T>(prior: seq<T>, n: nat, memory: nat -> T): (r: seq<T>)
    ensures |r| == n
    ensures forall k :: 0 <= k < n && k < |prior| ==> r[k] == prior[k]
  {
    seq(n, k requires 0 <= k < n => if k < |prior| then prior[k] else memory(k))
  }

  /** An out-array after `SetNumZeroed(n)`: the first `min(old length, n)`
      elements survive and only the added tail is zeroed. */
  function ResizeZeroed<T>(prior: seq<T>, n: nat, zero: T): (r: seq<T>)
    ensures |r| == n
    ensures forall k :: 0 <= k < n && k < |prior| ==> r[k] == prior[k]
    ensures forall k :: |prior| <= k < n ==> r[k] == zero
  {
    seq(n, k requires 0 <= k < n => if k < |prior| then prior[k] else zero)
  }

  /** Zeroing is only a reset for a buffer that starts empty: a reused buffer
      keeps its old leading elements, and one at least `n` long keeps all `n`. */
  lemma ResizeZeroedReuse<T>(prior: seq<T>, n: nat, zero: T)
    ensures |prior| == 0 ==> ResizeZeroed(prior, n, zero) == seq(n, _ => zero)
    ensures |prior| >= n ==> ResizeZeroed(prior, n, zero) == prior[..n]
  {
  }

  // ---------------------------------------------------------------------
  // Reference layout

  /** A neighbour index shifted up by `n` wraps back into `[0, n)`. */
  lemma CyclicWrap(k: int, n: int)
    requires n - 1 <= k < 2 * n + 1 && n >= 1
    ensures k % n == if k < n then k else if k < 2 * n then k - n else 0
  {
  }

  /** Unit direction from point `i` to its cyclic successor. */
  function NextDir(eng: Engine, points: seq<Vec3>, i: int): (d: Vec3)
    requires 0 <= i < |points|
    ensures i + 1 < |points| ==> d == eng.safeNormal(Sub(points[i + 1], points[i]))
    ensures i + 1 == |points| ==> d == eng.safeNormal(Sub(points[0], points[i]))
  {
    var n := |points|;
    CyclicWrap(i + 1 + n, n);
    eng.safeNormal(Sub(points[(i + 1 + n) % n], points[i]))
  }

  /** Unit direction from point `i` to its cyclic predecessor. */
  function PrevDir(eng: Engine, points: seq<Vec3>, i: int): (d: Vec3)
    requires 0 <= i < |points|
    ensures 0 < i ==> d == eng.safeNormal(Sub(points[i - 1], points[i]))
    ensures i == 0 ==> d == eng.safeNormal(Sub(points[|points| - 1], points[i]))
  {
    var n := |points|;
    CyclicWrap(i - 1 + n, n);
    eng.safeNormal(Sub(points[(i - 1 + n) % n], points[i]))
  }

  /** Unit direction from point `i` to the centroid. */
  function CenterDir(eng: Engine, points: seq<Vec3>, i: int): Vec3
    requires 0 <= i < |points|
  {
    eng.safeNormal(Sub(Centroid(points), points[i]))
  }

  /** The direction offset point `w` of base point `i` is pulled back along. */
  function OffsetDir(eng: Engine, points: seq<Vec3>, i: int, w: int): Vec3
    requires 0 <= i < |points|
  {
    if w == 0 then NextDir(eng, points, i)
    else if w == 1 then PrevDir(eng, points, i)
    else CenterDir(eng, points, i)
  }

  /** The one-hot mask a shader reads to know which offset rule made a vertex. */
  function MaskColor(w: int): LinearColor {
    if w == 0 then LinearColor(0.0, 1.0, 0.0, 0.0)
    else if w == 1 then LinearColor(1.0, 0.0, 0.0, 0.0)
    else LinearColor(0.0, 0.0, 1.0, 0.0)
  }

  function SlotVertex(eng: Engine, points: seq<Vec3>, eps: real, s: Slot): Vec3
    requires ValidSlot(|points|, s)
  {
    match s
    case Base(i) => points[i]
    case Offset(i, w) => Sub(points[i], Scale(eps, OffsetDir(eng, points, i, w)))
  }

  function SlotColor(s: Slot): LinearColor {
    match s
    case Base(_) => Transparent
    case Offset(_, w) => MaskColor(w)
  }

  /** First UV channel before packing: the owning base point's next-direction. */
  function SlotDirUv1(eng: Engine, points: seq<Vec3>, s: Slot): Vec2
    requires ValidSlot(|points|, s)
  {
    To2D(NextDir(eng, points, s.i))
  }

  /** Second UV channel before packing: the owning base point's previous-direction. */
  function SlotDirUv2(eng: Engine, points: seq<Vec3>, s: Slot): Vec2
    requires ValidSlot(|points|, s)
  {
    To2D(PrevDir(eng, points, s.i))
  }

  function GlowVertices(eng: Engine, points: seq<Vec3>, eps: real): seq<Vec3>
    requires |points| >= 1
  {
    var n := |points|;
    seq(4 * n, k requires 0 <= k < 4 * n => SlotVertex(eng, points, eps, SlotAt(n, k)))
  }

  function GlowColors(n: int): seq<LinearColor>
    requires n >= 1
  {
    seq(4 * n, k requires 0 <= k < 4 * n => SlotColor(SlotAt(n, k)))
  }

  function GlowUv1(eng: Engine, points: seq<Vec3>): seq<Vec2>
    requires |points| >= 1
  {
    var n := |points|;
    seq(4 * n, k requires 0 <= k < 4 * n => Pack(SlotDirUv1(eng, points, SlotAt(n, k))))
  }

  function GlowUv2(eng: Engine, points: seq<Vec3>): seq<Vec2>
    requires |points| >= 1
  {
    var n := |points|;
    seq(4 * n, k requires 0 <= k < 4 * n => Pack(SlotDirUv2(eng, points, SlotAt(n, k))))
  }

  /** The combined glow mesh of `points`. */
  function GlowMesh(eng: Engine, points: seq<Vec3>, eps: real): MeshBuffers
    requires |points| >= 2
  {
    MeshBuffers(GlowIndices(|points|), GlowVertices(eng, points, eps), GlowColors(|points|),
                GlowUv1(eng, points), GlowUv2(eng, points))
  }

  /** The vertex layout stated slot by slot: base points keep their position
      and a transparent colour; offset point `w` of base point `i` sits at
      `N+3i+w`, is pulled back by `eps` along the next-, previous- or
      centre-direction and carries that rule's one-hot mask; each UV channel
      repeats the base point's packed direction on all four of its slots. */
  lemma GlowMeshLayout(eng: Engine, points: seq<Vec3>, eps: real, i: int, w: int)
    requires |points| >= 2 && 0 <= i < |points| && 0 <= w < 3
    ensures var n := |points|; var m := GlowMesh(eng, points, eps);
      && |m.vertices| == |m.colors| == |m.uv1| == |m.uv2| == 4 * n
      && m.vertices[i] == points[i]
      && m.colors[i] == Transparent
      && m.vertices[n + 3 * i + w] == Sub(points[i], Scale(eps, OffsetDir(eng, points, i, w)))
      && m.colors[n + 3 * i + w] == MaskColor(w)
      && m.uv1[i] == m.uv1[n + 3 * i + w] == Pack(To2D(NextDir(eng, points, i)))
      && m.uv2[i] == m.uv2[n + 3 * i + w] == Pack(To2D(PrevDir(eng, points, i)))
  {
    BaseSlotLayout(eng, points, eps, i);
    OffsetSlotLayout(eng, points, eps, i, w);
  }

  lemma BaseSlotLayout(eng: Engine, points: seq<Vec3>, eps: real, i: int)
    requires |points| >= 2 && 0 <= i < |points|
    ensures var m := GlowMesh(eng, points, eps);
      && |m.vertices| == |m.colors| == |m.uv1| == |m.uv2| == 4 * |points|
      && m.vertices[i] == points[i]
      && m.colors[i] == Transparent
      && m.uv1[i] == Pack(To2D(NextDir(eng, points, i)))
      && m.uv2[i] == Pack(To2D(PrevDir(eng, points, i)))
  {
    assert SlotAt(|points|, i) == Base(i);
  }

  lemma OffsetSlotLayout(eng: Engine, points: seq<Vec3>, eps: real, i: int, w: int)
    requires |points| >= 2 && 0 <= i < |points| && 0 <= w < 3
    ensures var n := |points|; var m := GlowMesh(eng, points, eps);
      && |m.vertices| == |m.colors| == |m.uv1| == |m.uv2| == 4 * n
      && m.vertices[n + 3 * i + w] == Sub(points[i], Scale(eps, OffsetDir(eng, points, i, w)))
      && m.colors[n + 3 * i + w] == MaskColor(w)
      && m.uv1[n + 3 * i + w] == Pack(To2D(NextDir(eng, points, i)))
      && m.uv2[n + 3 * i + w] == Pack(To2D(PrevDir(eng, points, i)))
  {
    var n := |points|;
    SlotIndexAt(n, Offset(i, w));
    assert SlotAt(n, n + 3 * i + w) == Offset(i, w);
  }

  /** The three masks are pairwise distinct, so a shader can tell the rules apart,
      and none of them is the base points' colour. */
  lemma MasksDistinct(w: int, w': int)
    requires 0 <= w < 3 && 0 <= w' < 3
    ensures MaskColor(w) == MaskColor(w') <==> w == w'
    ensures MaskColor(w) != Transparent
  {
  }

  // ---------------------------------------------------------------------
  // The generator loops

  /** Steps 1, 2 and 4 of both generators: base points, offset points, masks,
      UV replication and UV packing. The buffers come in resized but holding
      whatever they held before; every slot is overwritten. */
  method WriteGlowVertices(eng: Engine, points: seq<Vec3>, eps: real,
                           vertices0: seq<Vec3>, colors0: seq<LinearColor>, uv10: seq<Vec2>, uv20: seq<Vec2>)
    returns (vertices: seq<Vec3>, colors: seq<LinearColor>, uv1: seq<Vec2>, uv2: seq<Vec2>)
    requires |points| >= 1
    requires |vertices0| == |colors0| == |uv10| == |uv20| == 4 * |points|
    ensures vertices == GlowVertices(eng, points, eps)
    ensures colors == GlowColors(|points|)
    ensures uv1 == GlowUv1(eng, points)
    ensures uv2 == GlowUv2(eng, points)
  {
    vertices, colors, uv1, uv2 := vertices0, colors0, uv10, uv20;
    var center;
    vertices, colors, center := WriteBasePoints(points, vertices, colors);
    vertices, colors, uv1, uv2 := WriteOffsetPoints(eng, points, eps, center, vertices, colors, uv1, uv2);
    uv1, uv2 := PackUvs(eng, points, uv1, uv2);
  }

  /** Step 1: base points with a transparent colour, and the centroid. */
  method WriteBasePoints(points: seq<Vec3>, vertices0: seq<Vec3>, colors0: seq<LinearColor>)
    returns (vertices: seq<Vec3>, colors: seq<LinearColor>, center: Vec3)
    requires |points| >= 1
    requires |vertices0| == |colors0| == 4 * |points|
    ensures |vertices| == |colors| == 4 * |points|
    ensures forall k :: 0 <= k < |points| ==> vertices[k] == points[k] && colors[k] == Transparent
    ensures center == Centroid(points)
  {
    var n := |points|;
    vertices, colors, center := vertices0, colors0, Zero3;
    var i := 0;
    while i < n
      invariant 0 <= i <= n
      invariant |vertices| == |colors| == 4 * n
      invariant forall k :: 0 <= k < i ==> vertices[k] == points[k] && colors[k] == Transparent
      invariant center == Sum(points[..i])
    {
      vertices := vertices[i := points[i]];
      colors := colors[i := Transparent];
      assert points[..i + 1][..i] == points[..i];
      center := Add(center, points[i]);
      i := i + 1;
    }
    assert points[..n] == points;
    center := Vec3(center.x / n as real, center.y / n as real, center.z / n as real);
  }

  /** Step 2: the three offset points of every base point, their masks and the
      unpacked UV directions of all four of its slots. */
  method WriteOffsetPoints(eng: Engine, points: seq<Vec3>, eps: real, center: Vec3,
                           vertices0: seq<Vec3>, colors0: seq<LinearColor>, uv10: seq<Vec2>, uv20: seq<Vec2>)
    returns (vertices: seq<Vec3>, colors: seq<LinearColor>, uv1: seq<Vec2>, uv2: seq<Vec2>)
    requires |points| >= 1 && center == Centroid(points)
    requires |vertices0| == |colors0| == |uv10| == |uv20| == 4 * |points|
    requires forall k :: 0 <= k < |points| ==> vertices0[k] == points[k] && colors0[k] == Transparent
    ensures |vertices| == |colors| == |uv1| == |uv2| == 4 * |points|
    ensures forall k :: 0 <= k < 4 * |points| ==>
      && vertices[k] == SlotVertex(eng, points, eps, SlotAt(|points|, k))
      && colors[k] == SlotColor(SlotAt(|points|, k))
    ensures forall k :: 0 <= k < 4 * |points| ==>
      && uv1[k] == SlotDirUv1(eng, points, SlotAt(|points|, k))
      && uv2[k] == SlotDirUv2(eng, points, SlotAt(|points|, k))
  {
    var n := |points|;
    vertices, colors, uv1, uv2 := vertices0, colors0, uv10, uv20;
    var i := 0;
    while i < n
      invariant 0 <= i <= n
      invariant |vertices| == |colors| == |uv1| == |uv2| == 4 * n
      invariant forall k :: 0 <= k < n ==> vertices[k] == points[k] && colors[k] == Transparent
      invariant forall k :: 0 <= k < i ==>
        uv1[k] == SlotDirUv1(eng, points, Base(k)) && uv2[k] == SlotDirUv2(eng, points, Base(k))
      invariant forall k :: n <= k < n + 3 * i ==>
        && vertices[k] == SlotVertex(eng, points, eps, SlotAt(n, k))
        && colors[k] == SlotColor(SlotAt(n, k))
      invariant forall k :: n <= k < n + 3 * i ==>
        && uv1[k] == SlotDirUv1(eng, points, SlotAt(n, k))
        && uv2[k] == SlotDirUv2(eng, points, SlotAt(n, k))
    {
      vertices, colors, uv1, uv2 := WritePointSlots(eng, points, eps, center, i, vertices, colors, uv1, uv2);
      i := i + 1;
    }
    forall k | 0 <= k < n
      ensures vertices[k] == SlotVertex(eng, points, eps, SlotAt(n, k))
      ensures colors[k] == SlotColor(SlotAt(n, k))
      ensures uv1[k] == SlotDirUv1(eng, points, SlotAt(n, k))
      ensures uv2[k] == SlotDirUv2(eng, points, SlotAt(n, k))
    {
      assert SlotAt(n, k) == Base(k);
    }
  }

  /** One iteration of step 2, for base point `i`. */
  method WritePointSlots(eng: Engine, points: seq<Vec3>, eps: real, center: Vec3, i: int,
                         vertices0: seq<Vec3>, colors0: seq<LinearColor>, uv10: seq<Vec2>, uv20: seq<Vec2>)
    returns (vertices: seq<Vec3>, colors: seq<LinearColor>, uv1: seq<Vec2>, uv2: seq<Vec2>)
    requires 0 <= i < |points| && center == Centroid(points)
    requires |vertices0| == |colors0| == |uv10| == |uv20| == 4 * |points|
    ensures |vertices| == |colors| == |uv1| == |uv2| == 4 * |points|
    ensures var n := |points|;
      forall k :: 0 <= k < 4 * n && !(n + 3 * i <= k < n + 3 * i + 3) ==>
        vertices[k] == vertices0[k] && colors[k] == colors0[k]
    ensures var n := |points|;
      forall k :: 0 <= k < 4 * n && k != i && !(n + 3 * i <= k < n + 3 * i + 3) ==>
        uv1[k] == uv10[k] && uv2[k] == uv20[k]
    ensures uv1[i] == SlotDirUv1(eng, points, Base(i)) && uv2[i] == SlotDirUv2(eng, points, Base(i))
    ensures var n := |points|;
      forall k :: n + 3 * i <= k < n + 3 * i + 3 ==>
        && vertices[k] == SlotVertex(eng, points, eps, SlotAt(n, k))
        && colors[k] == SlotColor(SlotAt(n, k))
        && uv1[k] == SlotDirUv1(eng, points, SlotAt(n, k))
        && uv2[k] == SlotDirUv2(eng, points, SlotAt(n, k))
  {
    var n := |points|;
    var nextDir := eng.safeNormal(Sub(points[(i + 1 + n) % n], points[i]));
    var prevDir := eng.safeNormal(Sub(points[(i - 1 + n) % n], points[i]));
    var centerDir := eng.safeNormal(Sub(center, points[i]));

    vertices := vertices0[n + 3 * i + 0 := Sub(points[i], Scale(eps, nextDir))];
    vertices := vertices[n + 3 * i + 1 := Sub(points[i], Scale(eps, prevDir))];
    vertices := vertices[n + 3 * i + 2 := Sub(points[i], Scale(eps, centerDir))];

    colors := colors0[n + 3 * i + 0 := LinearColor(0.0, 1.0, 0.0, 0.0)];
    colors := colors[n + 3 * i + 1 := LinearColor(1.0, 0.0, 0.0, 0.0)];
    colors := colors[n + 3 * i + 2 := LinearColor(0.0, 0.0, 1.0, 0.0)];

    uv1 := uv10[i := To2D(nextDir)];
    uv1 := uv1[n + 3 * i + 0 := To2D(nextDir)];
    uv1 := uv1[n + 3 * i + 1 := To2D(nextDir)];
    uv1 := uv1[n + 3 * i + 2 := To2D(nextDir)];

    uv2 := uv20[i := To2D(prevDir)];
    uv2 := uv2[n + 3 * i + 0 := To2D(prevDir)];
    uv2 := uv2[n + 3 * i + 1 := To2D(prevDir)];
    uv2 := uv2[n + 3 * i + 2 := To2D(prevDir)];

    SlotIndexAt(n, Offset(i, 0));
    SlotIndexAt(n, Offset(i, 1));
    SlotIndexAt(n, Offset(i, 2));
  }

  /** Step 4: both UV channels packed from [-1,1] into [0,1], every slot once. */
  method PackUvs(eng: Engine, points: seq<Vec3>, uv10: seq<Vec2>, uv20: seq<Vec2>)
    returns (uv1: seq<Vec2>, uv2: seq<Vec2>)
    requires |points| >= 1
    requires |uv10| == |uv20| == 4 * |points|
    requires forall k :: 0 <= k < 4 * |points| ==>
      && uv10[k] == SlotDirUv1(eng, points, SlotAt(|points|, k))
      && uv20[k] == SlotDirUv2(eng, points, SlotAt(|points|, k))
    ensures uv1 == GlowUv1(eng, points)
    ensures uv2 == GlowUv2(eng, points)
  {
    var n := |points|;
    uv1, uv2 := uv10, uv20;
    var i := 0;
    while i < 4 * n
      invariant 0 <= i <= 4 * n
      invariant |uv1| == |uv2| == 4 * n
      invariant forall k :: 0 <= k < i ==> uv1[k] == Pack(uv10[k]) && uv2[k] == Pack(uv20[k])
      invariant forall k :: i <= k < 4 * n ==> uv1[k] == uv10[k] && uv2[k] == uv20[k]
    {
      uv1 := uv1[i := Vec2(0.5 * uv1[i].x + 0.5, 0.5 * uv1[i].y + 0.5)];
      uv2 := uv2[i := Vec2(0.5 * uv2[i].x + 0.5, 0.5 * uv2[i].y + 0.5)];
      i := i + 1;
    }
  }

  /** Writes one triangle's three indices at the cursor, advancing it past them. */
  method WriteTri(buf: seq<int>, j0: int, a: int, b: int, c: int) returns (out: seq<int>, j: int)
    requires 0 <= j0 && j0 + 3 <= |buf|
    ensures j == j0 + 3 && |out| == |buf|
    ensures out[..j0] == buf[..j0] && out[j..] == buf[j..]
    ensures out[j0..j] == Corners(Tri(a, b, c))
  {
    out, j := buf, j0;
    out := out[j := a];
    j := j + 1;
    out := out[j := b];
    j := j + 1;
    out := out[j := c];
    j := j + 1;
  }

  /** Writing `t` right after the prefix `before` of `buf` extends it by the three corners. */
  lemma AppendWritten(buf: seq<int>, out: seq<int>, j0: int, j: int, before: seq<int>)
    requires 0 <= j0 <= j && j + 3 <= |buf| == |out|
    requires buf[j0..j] == before
    requires out[..j] == buf[..j]
    ensures out[j0..j + 3] == before + out[j..j + 3]
  {
    assert out[j0..j] == buf[j0..j];
    assert out[j0..j + 3] == out[j0..j] + out[j..j + 3];
  }

  /** Step 3.1: the inner fan, written from position `j0` on. */
  method WriteFan(n: int, buf: seq<int>, j0: int) returns (out: seq<int>, j: int)
    requires n >= 2 && 0 <= j0 && j0 + 3 * (n - 2) <= |buf|
    ensures j == j0 + 3 * (n - 2)
    ensures |out| == |buf|
    ensures out[..j0] == buf[..j0] && out[j..] == buf[j..]
    ensures out[j0..j] == FanIndices(n)
  {
    out, j := buf, j0;
    var i := 1;
    while i < n - 1
      invariant 1 <= i <= n - 1
      invariant j == j0 + 3 * (i - 1)
      invariant |out| == |buf|
      invariant out[..j0] == buf[..j0] && out[j..] == buf[j..]
      invariant out[j0..j] == Flatten(FanTris(n)[..i - 1])
    {
      ghost var (prev, pj) := (out, j);
      out, j := WriteTri(out, j, i, 0, i + 1);
      AppendWritten(prev, out, j0, pj, prev[j0..pj]);
      assert FanTris(n)[..i][..i - 1] == FanTris(n)[..i - 1];
      i := i + 1;
    }
    assert FanTris(n)[..n - 2] == FanTris(n);
  }

  /** Writes two triangles at the cursor, advancing it past their six indices. */
  method WriteTriPair(buf: seq<int>, j0: int, t0: Tri, t1: Tri) returns (out: seq<int>, j: int)
    requires 0 <= j0 && j0 + 6 <= |buf|
    ensures j == j0 + 6 && |out| == |buf|
    ensures out[..j0] == buf[..j0] && out[j..] == buf[j..]
    ensures out[j0..j] == Corners(t0) + Corners(t1)
  {
    var mid;
    out, mid := WriteTri(buf, j0, t0.a, t0.b, t0.c);
    ghost var first := out;
    out, j := WriteTri(out, mid, t1.a, t1.b, t1.c);
    assert out[j0..mid] == first[j0..mid] by {
      assert out[..mid] == first[..mid];
    }
    assert out[j0..j] == out[j0..mid] + out[mid..j];
    assert out[..j0] == first[..j0] by {
      assert out[..mid][..j0] == first[..mid][..j0];
    }
  }

  /** A pair written after the flattened prefix `ts[..2i]` extends it to `ts[..2i+2]`. */
  lemma PairStep(ts: seq<Tri>, i: int, prev: seq<int>, out: seq<int>, j0: int, pj: int)
    requires 0 <= 2 * i && 2 * i + 2 <= |ts|
    requires 0 <= j0 <= pj && pj + 6 <= |prev| == |out|
    requires prev[j0..pj] == Flatten(ts[..2 * i])
    requires out[..pj] == prev[..pj]
    requires out[pj..pj + 6] == Corners(ts[2 * i]) + Corners(ts[2 * i + 1])
    ensures out[j0..pj + 6] == Flatten(ts[..2 * i + 2])
  {
    FlattenPairStep(ts, i, ts[2 * i], ts[2 * i + 1]);
    assert out[j0..pj] == prev[j0..pj] by {
      assert out[..pj][j0..] == prev[..pj][j0..];
    }
    assert out[j0..pj + 6] == out[j0..pj] + out[pj..pj + 6];
  }

  /** Base point `i`'s two flap triangles, written after the first `i` pairs. */
  method WriteFlapPair(n: int, i: int, buf: seq<int>, j0: int, j: int) returns (out: seq<int>, j': int)
    requires 0 <= i < n && 0 <= j0 && j == j0 + 6 * i && j + 6 <= |buf|
    requires buf[j0..j] == Flatten(FlapTris(n)[..2 * i])
    ensures j' == j + 6 && |out| == |buf|
    ensures out[..j] == buf[..j] && out[j'..] == buf[j'..]
    ensures out[j0..j'] == Flatten(FlapTris(n)[..2 * i + 2])
  {
    var next := (i + 1) % n;
    out, j' := WriteTriPair(buf, j, Tri(n + 3 * i + 1, i, n + 3 * next + 0), Tri(n + 3 * next + 0, i, next));
    FlapPairAt(n, i);
    PairStep(FlapTris(n), i, buf, out, j0, j);
  }

  /** Step 3.2: one pair of flap triangles per base point. */
  method WriteFlaps(n: int, buf: seq<int>, j0: int) returns (out: seq<int>, j: int)
    requires n >= 1 && 0 <= j0 && j0 + 6 * n <= |buf|
    ensures j == j0 + 6 * n
    ensures |out| == |buf|
    ensures out[..j0] == buf[..j0] && out[j..] == buf[j..]
    ensures out[j0..j] == Flatten(FlapTris(n))
  {
    out, j := buf, j0;
    var i := 0;
    while i < n
      invariant 0 <= i <= n
      invariant j == j0 + 6 * i
      invariant |out| == |buf|
      invariant out[..j0] == buf[..j0] && out[j..] == buf[j..]
      invariant out[j0..j] == Flatten(FlapTris(n)[..2 * i])
    {
      ghost var (prev, pj) := (out, j);
      out, j := WriteFlapPair(n, i, out, j0, j);
      FrameStep(buf, prev, out, j0, pj, j);
      i := i + 1;
    }
    assert FlapTris(n)[..2 * n] == FlapTris(n);
  }

  /** Base point `i`'s two connector triangles, written after the first `i` pairs. */
  method WriteConnectorPair(n: int, i: int, buf: seq<int>, j0: int, j: int) returns (out: seq<int>, j': int)
    requires 0 <= i < n && 0 <= j0 && j == j0 + 6 * i && j + 6 <= |buf|
    requires buf[j0..j] == Flatten(ConnectorTris(n)[..2 * i])
    ensures j' == j + 6 && |out| == |buf|
    ensures out[..j] == buf[..j] && out[j'..] == buf[j'..]
    ensures out[j0..j'] == Flatten(ConnectorTris(n)[..2 * i + 2])
  {
    out, j' := WriteTriPair(buf, j, Tri(n + 3 * i + 0, i, n + 3 * i + 2), Tri(n + 3 * i + 2, i, n + 3 * i + 1));
    ConnectorPairAt(n, i);
    PairStep(ConnectorTris(n), i, buf, out, j0, j);
  }

  /** Step 3.3: one pair of connector triangles per base point. */
  method WriteConnectors(n: int, buf: seq<int>, j0: int) returns (out: seq<int>, j: int)
    requires n >= 1 && 0 <= j0 && j0 + 6 * n <= |buf|
    ensures j == j0 + 6 * n
    ensures |out| == |buf|
    ensures out[..j0] == buf[..j0] && out[j..] == buf[j..]
    ensures out[j0..j] == Flatten(ConnectorTris(n))
  {
    out, j := buf, j0;
    var i := 0;
    while i < n
      invariant 0 <= i <= n
      invariant j == j0 + 6 * i
      invariant |out| == |buf|
      invariant out[..j0] == buf[..j0] && out[j..] == buf[j..]
      invariant out[j0..j] == Flatten(ConnectorTris(n)[..2 * i])
    {
      ghost var (prev, pj) := (out, j);
      out, j := WriteConnectorPair(n, i, out, j0, j);
      FrameStep(buf, prev, out, j0, pj, j);
      i := i + 1;
    }
    assert ConnectorTris(n)[..2 * n] == ConnectorTris(n);
  }

  /** Entries `2i` and `2i+1` of the flap list are base point `i`'s pair. */
  lemma FlapPairAt(n: int, i: int)
    requires 0 <= i < n
    ensures FlapTris(n)[2 * i] == FlapTri(n, i, false)
    ensures FlapTris(n)[2 * i + 1] == FlapTri(n, i, true)
  {
    assert (2 * i) / 2 == i && (2 * i) % 2 == 0;
    assert (2 * i + 1) / 2 == i && (2 * i + 1) % 2 == 1;
  }

  /** Entries `2i` and `2i+1` of the connector list are base point `i`'s pair. */
  lemma ConnectorPairAt(n: int, i: int)
    requires 0 <= i < n
    ensures ConnectorTris(n)[2 * i] == ConnectorTri(n, i, false)
    ensures ConnectorTris(n)[2 * i + 1] == ConnectorTri(n, i, true)
  {
    assert (2 * i) / 2 == i && (2 * i) % 2 == 0;
    assert (2 * i + 1) / 2 == i && (2 * i + 1) % 2 == 1;
  }

  /** Writing only `[pj, j)` keeps what lies before `j0 <= pj` and from `j` on. */
  lemma FrameStep(buf: seq<int>, prev: seq<int>, out: seq<int>, j0: int, pj: int, j: int)
    requires 0 <= j0 <= pj <= j <= |buf| == |prev| == |out|
    requires prev[..j0] == buf[..j0] && prev[pj..] == buf[pj..]
    requires out[..pj] == prev[..pj] && out[j..] == prev[j..]
    ensures out[..j0] == buf[..j0] && out[j..] == buf[j..]
  {
    assert out[..pj][..j0] == prev[..pj][..j0];
    assert prev[pj..][j - pj..] == buf[pj..][j - pj..];
  }

  /** Extending a prefix of a triangle list by its next two triangles. */
  lemma FlattenPairStep(ts: seq<Tri>, i: int, t0: Tri, t1: Tri)
    requires 0 <= 2 * i && 2 * i + 2 <= |ts|
    requires ts[2 * i] == t0 && ts[2 * i + 1] == t1
    ensures Flatten(ts[..2 * i + 2]) == Flatten(ts[..2 * i]) + Corners(t0) + Corners(t1)
  {
    assert ts[..2 * i + 2][..2 * i + 1] == ts[..2 * i + 1];
    assert ts[..2 * i + 1][..2 * i] == ts[..2 * i];
  }

  /** Steps 3.2 and 3.3 together: the glow ring. */
  method WriteRing(n: int, buf: seq<int>, j0: int) returns (out: seq<int>, j: int)
    requires n >= 1 && 0 <= j0 && j0 + 12 * n <= |buf|
    ensures j == j0 + 12 * n
    ensures |out| == |buf|
    ensures out[..j0] == buf[..j0] && out[j..] == buf[j..]
    ensures out[j0..j] == RingIndices(n)
  {
    var mid;
    out, mid := WriteFlaps(n, buf, j0);
    ghost var flaps := out[j0..mid];
    out, j := WriteConnectors(n, out, mid);
    FlattenAppend(FlapTris(n), ConnectorTris(n));
    assert out[j0..j] == out[j0..mid] + out[mid..j];
  }

  /** UGlowUtils::GenerateGlowMesh. `prior` is what the out-arrays held on
      entry and `memory` what their grown parts read; `eps` is the caller's
      offset, 0.1 unless given (Source/GlowingQuad/Public/GlowUtils.h:18). Every write lands inside its buffer
      and the index cursor ends exactly at the end of the index buffer, so the
      result depends on `points` and `eps` alone. */
  method GenerateGlowMesh(eng: Engine, points: seq<Vec3>, eps: real, prior: MeshBuffers, memory: Memory)
    returns (m: MeshBuffers)
    requires |points| >= 2
    ensures m == GlowMesh(eng, points, eps)
    ensures Encodes(m.indices, GlowTris(|points|))
    ensures var n := |points|;
      && |m.vertices| == |m.colors| == |m.uv1| == |m.uv2| == 4 * n
      && |m.indices| == 3 * (n - 2 + n * 4)
      && forall k :: 0 <= k < |m.indices| ==> 0 <= m.indices[k] < 4 * n
  {
    var n := |points|;
    var vertices, colors, uv1, uv2 := WriteGlowVertices(eng, points, eps,
      ResizeUninitialized(prior.vertices, 4 * n, memory.vertices),
      ResizeUninitialized(prior.colors, 4 * n, memory.colors),
      ResizeUninitialized(prior.uv1, 4 * n, memory.uv1),
      ResizeUninitialized(prior.uv2, 4 * n, memory.uv2));
    var indices := ResizeUninitialized(prior.indices, 3 * (n - 2 + n * 4), memory.indices);
    var j := 0;
    indices, j := WriteFan(n, indices, j);
    indices, j := WriteRing(n, indices, j);
    assert j == |indices|;
    GlowIndicesLayout(n);
    assert indices == indices[..3 * (n - 2)] + indices[3 * (n - 2)..];
    GlowIndicesInRange(n);
    FlattenEncodes(GlowTris(n));
    m := MeshBuffers(indices, vertices, colors, uv1, uv2);
  }

  /** The fill index buffer as the split generator leaves it: the fan, then
      whatever the buffer held in the six entries it never writes. Below two
      points the fan loop does not run and no entry is written. */
  function FillIndicesAsWritten(n: int, uninitialized: seq<int>): seq<int>
    requires n >= 0 && |uninitialized| == 3 * n
  {
    if n >= 2 then FanIndices(n) + uninitialized[3 * (n - 2)..] else uninitialized
  }

  /** UGlowUtils::GenerateSplitGlowMesh, with the prior contents and the
      uninitialised memory of the fill and the glow out-arrays. The fill
      vertices are assigned, its colours and UVs resized with zeroing, and its
      index buffer resized without initialisation to more than the fan needs.
      Every write is in bounds for any number of points. */
  method GenerateSplitGlowMesh(eng: Engine, points: seq<Vec3>, eps: real,
                               priorFill: MeshBuffers, priorGlow: MeshBuffers,
                               fillMemory: Memory, glowMemory: Memory)
    returns (fill: MeshBuffers, glow: MeshBuffers)
    ensures var n := |points|;
      && |glow.vertices| == |glow.colors| == |glow.uv1| == |glow.uv2| == 4 * n
      && |glow.indices| == 12 * n
    ensures |points| >= 1 ==>
      && glow.vertices == GlowVertices(eng, points, eps)
      && glow.colors == GlowColors(|points|)
      && glow.uv1 == GlowUv1(eng, points)
      && glow.uv2 == GlowUv2(eng, points)
      && glow.indices == RingIndices(|points|)
      && Encodes(glow.indices, RingTris(|points|))
    ensures |points| >= 2 ==> var n := |points|; var combined := GlowMesh(eng, points, eps);
      && glow.vertices == combined.vertices
      && glow.colors == combined.colors
      && glow.uv1 == combined.uv1
      && glow.uv2 == combined.uv2
      && glow.indices == combined.indices[3 * (n - 2)..]
    ensures var n := |points|;
      && fill.vertices == points
      && fill.colors == ResizeZeroed(priorFill.colors, n, Transparent)
      && fill.uv1 == ResizeZeroed(priorFill.uv1, n, Vec2(0.0, 0.0))
      && fill.uv2 == ResizeZeroed(priorFill.uv2, n, Vec2(0.0, 0.0))
      && fill.indices == FillIndicesAsWritten(n, ResizeUninitialized(priorFill.indices, 3 * n, fillMemory.indices))
      && |fill.indices| == 3 * n
    ensures |points| >= 2 ==>
      fill.indices[..3 * (|points| - 2)] == GlowMesh(eng, points, eps).indices[..3 * (|points| - 2)]
    ensures |points| < 2 ==>
      fill.indices == ResizeUninitialized(priorFill.indices, 3 * |points|, fillMemory.indices)
  {
    var n := |points|;
    if n == 0 {
      // No loop runs; the centroid's division by zero is never read.
      glow := MeshBuffers([], [], [], [], []);
    } else {
      glow := WriteSplitGlow(eng, points, eps, priorGlow, glowMemory);
    }
    if n >= 2 {
      GlowIndicesLayout(n);
    }

    var fillIndices := ResizeUninitialized(priorFill.indices, 3 * n, fillMemory.indices);
    ghost var uninitialized := fillIndices;
    if n >= 2 {
      // The fan loop runs for `i = 1 .. N-2`: not at all below two points.
      var j := 0;
      fillIndices, j := WriteFan(n, fillIndices, j);
      assert fillIndices == fillIndices[0..j] + fillIndices[j..];
    }
    assert fillIndices == FillIndicesAsWritten(n, uninitialized);
    fill := MeshBuffers(fillIndices, points,
                        ResizeZeroed(priorFill.colors, n, Transparent),
                        ResizeZeroed(priorFill.uv1, n, Vec2(0.0, 0.0)),
                        ResizeZeroed(priorFill.uv2, n, Vec2(0.0, 0.0)));
  }

  /** The glow half of the split generator: the combined generator's
      vertices, colours and UVs, and the ring alone as index buffer. */
  method WriteSplitGlow(eng: Engine, points: seq<Vec3>, eps: real, prior: MeshBuffers, memory: Memory)
    returns (glow: MeshBuffers)
    requires |points| >= 1
    ensures glow.vertices == GlowVertices(eng, points, eps)
    ensures glow.colors == GlowColors(|points|)
    ensures glow.uv1 == GlowUv1(eng, points)
    ensures glow.uv2 == GlowUv2(eng, points)
    ensures glow.indices == RingIndices(|points|)
    ensures Encodes(glow.indices, RingTris(|points|))
  {
    var n := |points|;
    var vertices, colors, uv1, uv2 := WriteGlowVertices(eng, points, eps,
      ResizeUninitialized(prior.vertices, 4 * n, memory.vertices),
      ResizeUninitialized(prior.colors, 4 * n, memory.colors),
      ResizeUninitialized(prior.uv1, 4 * n, memory.uv1),
      ResizeUninitialized(prior.uv2, 4 * n, memory.uv2));
    var indices := ResizeUninitialized(prior.indices, 3 * (0 + n * 4), memory.indices);
    var j := 0;
    indices, j := WriteRing(n, indices, j);
    assert indices == indices[0..j];
    FlattenEncodes(RingTris(n));
    glow := MeshBuffers(indices, vertices, colors, uv1, uv2);
  }

  // ---------------------------------------------------------------------
  // Fail-fast entry points

  /** The combined generator behind the `N >= 3` check the source leaves out. */
  method BuildGlowMesh(eng: Engine, points: seq<Vec3>, eps: real, prior: MeshBuffers, memory: Memory)
    returns (r: Result<MeshBuffers, GlowError>)
    ensures r.Failure? <==> |points| < 3
    ensures r.Failure? ==> r.error == TooFewPoints(|points|)
    ensures r.Success? ==> r.value == GlowMesh(eng, points, eps)
  {
    if |points| < 3 {
      return Failure(TooFewPoints(|points|));
    }
    var m := GenerateGlowMesh(eng, points, eps, prior, memory);
    return Success(m);
  }

  /** The split generator with the `N >= 3` check and a fill index buffer
      sized to the `N-2` fan triangles it holds; everything else is as the
      split generator leaves it. */
  method BuildSplitGlowMesh(eng: Engine, points: seq<Vec3>, eps: real,
                            priorFill: MeshBuffers, priorGlow: MeshBuffers,
                            fillMemory: Memory, glowMemory: Memory)
    returns (r: Result<(MeshBuffers, MeshBuffers), GlowError>)
    ensures r.Failure? <==> |points| < 3
    ensures r.Failure? ==> r.error == TooFewPoints(|points|)
    ensures r.Success? ==> var n := |points|; var (fill, glow) := r.value;
      && fill.vertices == points
      && fill.colors == ResizeZeroed(priorFill.colors, n, Transparent)
      && fill.uv1 == ResizeZeroed(priorFill.uv1, n, Vec2(0.0, 0.0))
      && fill.uv2 == ResizeZeroed(priorFill.uv2, n, Vec2(0.0, 0.0))
      && fill.indices == FanIndices(n)
      && |fill.indices| == 3 * (n - 2)
      && Encodes(fill.indices, FanTris(n))
      && (forall k :: 0 <= k < |fill.indices| ==> 0 <= fill.indices[k] < n)
      && glow.vertices == GlowVertices(eng, points, eps)
      && glow.colors == GlowColors(n)
      && glow.uv1 == GlowUv1(eng, points)
      && glow.uv2 == GlowUv2(eng, points)
      && glow.indices == RingIndices(n)
      && Encodes(glow.indices, RingTris(n))
      && fill.indices + glow.indices == GlowIndices(n)
  {
    var n := |points|;
    if n < 3 {
      return Failure(TooFewPoints(n));
    }
    var glow := WriteSplitGlow(eng, points, eps, priorGlow, glowMemory);
    var fillIndices := WriteFillIndices(n, priorFill.indices, fillMemory);
    GlowIndicesLayout(n);
    var fill := MeshBuffers(fillIndices, points,
                            ResizeZeroed(priorFill.colors, n, Transparent),
                            ResizeZeroed(priorFill.uv1, n, Vec2(0.0, 0.0)),
                            ResizeZeroed(priorFill.uv2, n, Vec2(0.0, 0.0)));
    return Success((fill, glow));
  }

  /** The corrected fill index buffer: sized to the fan, so the fan loop
      overwrites every entry. */
  method WriteFillIndices(n: int, prior: seq<int>, memory: Memory) returns (indices: seq<int>)
    requires n >= 2
    ensures indices == FanIndices(n)
    ensures |indices| == 3 * (n - 2)
    ensures Encodes(indices, FanTris(n))
    ensures forall k :: 0 <= k < |indices| ==> 0 <= indices[k] < n
  {
    indices := ResizeUninitialized(prior, 3 * (n - 2), memory.indices);
    var j := 0;
    indices, j := WriteFan(n, indices, j);
    assert indices == indices[0..j];
    FanIndicesInRange(n);
    FlattenEncodes(FanTris(n));
  }

  // ---------------------------------------------------------------------
  // Buffer sizing as written

  /** How many index entries the three index loops of GenerateGlowMesh write:
      the fan loop runs for `i = 1 .. N-2`, the other two for `i = 0 .. N-1`. */
  function IndexWrites(n: int): int {
    3 * (if n > 2 then n - 2 else 0) + 6 * (if n > 0 then n else 0) + 6 * (if n > 0 then n else 0)
  }

  /** The size GenerateGlowMesh gives its index buffer. */
  function IndexBufferSize(n: int): int {
    3 * (n - 2 + n * 4)
  }

  /** The size is computed in 32-bit `int`: it leaves that range, and would
      wrap, from 143,165,577 points on. */
  lemma IndexBufferSizeInt32(n: int)
    requires n >= 0
    ensures IndexBufferSize(n) <= 0x7fff_ffff <==> n <= 143165576
  {
  }

  /** The index writes stay inside the buffer exactly when the polygon has at
      least two points, and then they fill it completely. */
  lemma IndexWritesFit(n: int)
    requires n >= 0
    ensures 0 <= IndexBufferSize(n) && IndexWrites(n) <= IndexBufferSize(n) <==> n >= 2
    ensures n >= 2 ==> IndexWrites(n) == IndexBufferSize(n)
  {
  }

  /** A one-point polygon gets a 9-entry index buffer but 12 writes, and an
      empty one a negative size. */
  lemma SmallPolygonOverflows()
    ensures IndexBufferSize(1) == 9 && IndexWrites(1) == 12
    ensures IndexBufferSize(0) == -6
  {
  }

  /** The split generator's fill index buffer ends in six entries no loop
      writes: its contents depend on memory, not on the polygon, and for a
      triangle the leftover entries can name vertices the fill mesh lacks. */
  lemma FillTailUnwritten(n: int, u: seq<int>, u': seq<int>)
    requires n >= 2 && |u| == 3 * n && |u'| == 3 * n
    ensures |FillIndicesAsWritten(n, u)| - |FanIndices(n)| == 6
    ensures FillIndicesAsWritten(n, u) == FillIndicesAsWritten(n, u') <==> u[3 * (n - 2)..] == u'[3 * (n - 2)..]
  {
    var f, f' := FillIndicesAsWritten(n, u), FillIndicesAsWritten(n, u');
    var p := |FanIndices(n)|;
    if f == f' {
      assert u[3 * (n - 2)..] == f[p..] == f'[p..] == u'[3 * (n - 2)..];
    }
  }

  /** Concretely: a triangle whose fill buffer held stale index 7 keeps it. */
  lemma TriangleFillKeepsStaleIndex()
    ensures var f := FillIndicesAsWritten(3, seq(9, _ => 7));
      |f| == 9 && f[..3] == [1, 0, 2] && f[3] == 7 && f[3] >= 3
  {
    assert FanTris(3) == [Tri(1, 0, 2)];
    assert Flatten([Tri(1, 0, 2)]) == [1, 0, 2];
  }
}
