/** Index-buffer topology of the glow mesh: triangles, the flattening of a
    triangle list into an index buffer, the vertex-slot layout of an N-point
    glow polygon and the three triangle rings the generators emit. */
module Topology {

  /** One triangle, as its three vertex indices in winding order. */
  datatype Tri = Tri(a: int, b: int, c: int)

  function Corners(t: Tri): seq<int> {
    [t.a, t.b, t.c]
  }

  /** The index buffer that lists the triangles `ts` in order, three entries each. */
  function Flatten(ts: seq<Tri>): (r: seq<int>)
    ensures |r| == 3 * |ts|
    decreases |ts|
  {
    if |ts| == 0 then [] else Flatten(ts[..|ts| - 1]) + Corners(ts[|ts| - 1])
  }

  /** Reads an index buffer back as a list of triangles. */
  function Unflatten(s: seq<int>): (r: seq<Tri>)
    requires |s| % 3 == 0
    ensures 3 * |r| == |s|
    decreases |s|
  {
    if |s| == 0 then [] else Unflatten(s[..|s| - 3]) + [Tri(s[|s| - 3], s[|s| - 2], s[|s| - 1])]
  }

  /** `s` is an index buffer that reads back as the triangle list `ts`. */
  predicate Encodes(s: seq<int>, ts: seq<Tri>) {
    |s| % 3 == 0 && Unflatten(s) == ts
  }

  /** Each triangle list is encoded by its flattening. */
  lemma FlattenEncodes(ts: seq<Tri>)
    ensures Encodes(Flatten(ts), ts)
  {
    UnflattenFlatten(ts);
  }

  lemma {:induction false} UnflattenFlatten(ts: seq<Tri>)
    ensures Unflatten(Flatten(ts)) == ts
    decreases |ts|
  {
    if |ts| > 0 {
      var init := ts[..|ts| - 1];
      var f := Flatten(ts);
      assert f[..|f| - 3] == Flatten(init);
      UnflattenFlatten(init);
      assert ts == init + [ts[|ts| - 1]];
    }
  }

  lemma {:induction false} FlattenUnflatten(s: seq<int>)
    requires |s| % 3 == 0
    ensures Flatten(Unflatten(s)) == s
    decreases |s|
  {
    if |s| > 0 {
      var init := s[..|s| - 3];
      var last := Tri(s[|s| - 3], s[|s| - 2], s[|s| - 1]);
      var u := Unflatten(s);
      assert u == Unflatten(init) + [last];
      assert u[..|u| - 1] == Unflatten(init);
      FlattenUnflatten(init);
      calc {
        Flatten(u);
        Flatten(Unflatten(init)) + Corners(last);
        init + Corners(last);
      }
      assert s == init + Corners(last);
    }
  }

  lemma {:induction false} FlattenAppend(a: seq<Tri>, b: seq<Tri>)
    ensures Flatten(a + b) == Flatten(a) + Flatten(b)
    decreases |b|
  {
    if |b| > 0 {
      var b' := b[..|b| - 1];
      assert (a + b)[..|a + b| - 1] == a + b';
      FlattenAppend(a, b');
    } else {
      assert a + b == a;
    }
  }

  /** Triangle `t` occupies entries `3t`, `3t+1`, `3t+2` of the flattened buffer. */
  lemma {:induction false} FlattenAt(ts: seq<Tri>, t: int)
    requires 0 <= t < |ts|
    ensures Flatten(ts)[3 * t] == ts[t].a
    ensures Flatten(ts)[3 * t + 1] == ts[t].b
    ensures Flatten(ts)[3 * t + 2] == ts[t].c
    decreases |ts|
  {
    if t < |ts| - 1 {
      FlattenAt(ts[..|ts| - 1], t);
    }
  }

  predicate TriBelow(t: Tri, hi: int) {
    0 <= t.a < hi && 0 <= t.b < hi && 0 <= t.c < hi
  }

  lemma {:induction false} FlattenBelow(ts: seq<Tri>, hi: int)
    requires forall t :: 0 <= t < |ts| ==> TriBelow(ts[t], hi)
    ensures forall k :: 0 <= k < |Flatten(ts)| ==> 0 <= Flatten(ts)[k] < hi
    decreases |ts|
  {
    if |ts| > 0 {
      FlattenBelow(ts[..|ts| - 1], hi);
    }
  }

  // ---------------------------------------------------------------------
  // Vertex slots of an N-point glow mesh

  /** A vertex slot: base point `i`, or the offset point `w` (0, 1 or 2) of base point `i`. */
  datatype Slot = Base(i: int) | Offset(i: int, w: int)

  predicate ValidSlot(n: int, s: Slot) {
    match s
    case Base(i) => 0 <= i < n
    case Offset(i, w) => 0 <= i < n && 0 <= w < 3
  }

  /** Where the generators store a slot: base points first, then three offset points per base point. */
  function SlotIndex(n: int, s: Slot): int {
    match s
    case Base(i) => i
    case Offset(i, w) => n + 3 * i + w
  }

  /** The slot stored at buffer position `k`; inverse of `SlotIndex`. */
  function SlotAt(n: int, k: int): (s: Slot)
    requires 0 <= k < 4 * n
    ensures ValidSlot(n, s) && SlotIndex(n, s) == k
  {
    if k < n then Base(k) else Offset((k - n) / 3, (k - n) % 3)
  }

  /** Every valid slot has exactly one position, inside `[0, 4n)`. */
  lemma SlotIndexAt(n: int, s: Slot)
    requires ValidSlot(n, s)
    ensures 0 <= SlotIndex(n, s) < 4 * n
    ensures SlotAt(n, SlotIndex(n, s)) == s
  {
  }

  // ---------------------------------------------------------------------
  // The three triangle rings

  /** Inner fan from vertex 0: triangles `(k, 0, k+1)` for `k = 1 .. n-2`. */
  function FanTris(n: int): seq<Tri>
    requires n >= 2
  {
    seq(n - 2, k => Tri(k + 1, 0, k + 2))
  }

  /** The two flap triangles between base point `i` and its successor. */
  function FlapTri(n: int, i: int, second: bool): Tri
    requires n >= 1
  {
    var next := (i + 1) % n;
    if !second then Tri(n + 3 * i + 1, i, n + 3 * next) else Tri(n + 3 * next, i, next)
  }

  /** The two connector triangles around base point `i`. */
  function ConnectorTri(n: int, i: int, second: bool): Tri {
    if !second then Tri(n + 3 * i, i, n + 3 * i + 2) else Tri(n + 3 * i + 2, i, n + 3 * i + 1)
  }

  function FlapTris(n: int): seq<Tri>
    requires n >= 1
  {
    seq(2 * n, t => FlapTri(n, t / 2, t % 2 == 1))
  }

  function ConnectorTris(n: int): seq<Tri>
    requires n >= 1
  {
    seq(2 * n, t => ConnectorTri(n, t / 2, t % 2 == 1))
  }

  /** The glow ring: all flaps, then all connectors. */
  function RingTris(n: int): seq<Tri>
    requires n >= 1
  {
    FlapTris(n) + ConnectorTris(n)
  }

  /** The combined glow mesh: fan, flaps, connectors. */
  function GlowTris(n: int): seq<Tri>
    requires n >= 2
  {
    FanTris(n) + RingTris(n)
  }

  function FanIndices(n: int): seq<int>
    requires n >= 2
  {
    Flatten(FanTris(n))
  }

  function RingIndices(n: int): seq<int>
    requires n >= 1
  {
    Flatten(RingTris(n))
  }

  function GlowIndices(n: int): seq<int>
    requires n >= 2
  {
    Flatten(GlowTris(n))
  }

  /** Sizes of the index buffers, and the combined buffer is the fan followed by the ring. */
  lemma GlowIndicesLayout(n: int)
    requires n >= 2
    ensures |FanIndices(n)| == 3 * (n - 2)
    ensures |RingIndices(n)| == 3 * (n * 4)
    ensures |GlowIndices(n)| == 3 * (n - 2 + n * 4)
    ensures GlowIndices(n) == FanIndices(n) + RingIndices(n)
  {
    FlattenAppend(FanTris(n), RingTris(n));
  }

  /** Every index of the combined buffer names one of the `4n` vertices; the
      largest one, `4n-1`, is the centre-offset point of the last base point. */
  lemma GlowIndicesInRange(n: int)
    requires n >= 2
    ensures forall k :: 0 <= k < |GlowIndices(n)| ==> 0 <= GlowIndices(n)[k] < 4 * n
    ensures 4 * n - 1 in GlowIndices(n)
  {
    var ts := GlowTris(n);
    forall t | 0 <= t < |ts|
      ensures TriBelow(ts[t], 4 * n)
    {
    }
    FlattenBelow(ts, 4 * n);
    var last := |ts| - 2;
    assert ts[last] == ConnectorTri(n, n - 1, false);
    FlattenAt(ts, last);
    assert GlowIndices(n)[3 * last + 2] == 4 * n - 1;
  }

  /** The fan only references base points. */
  lemma FanIndicesInRange(n: int)
    requires n >= 2
    ensures forall k :: 0 <= k < |FanIndices(n)| ==> 0 <= FanIndices(n)[k] < n
  {
    FlattenBelow(FanTris(n), n);
  }

  /** Base point `i` is the middle corner of its first flap. */
  lemma BaseReferenced(n: int, i: int)
    requires 0 <= i < n
    ensures RingIndices(n)[3 * (2 * i) + 1] == i
  {
    var ts := RingTris(n);
    assert ts[2 * i] == FlapTri(n, i, false) by {
      assert (2 * i) / 2 == i && (2 * i) % 2 == 0;
    }
    FlattenAt(ts, 2 * i);
  }

  /** Offset point `w` of base point `i` is a corner of one of its connectors. */
  lemma OffsetReferenced(n: int, i: int, w: int)
    requires 0 <= i < n && 0 <= w < 3
    ensures n + 3 * i + w in RingIndices(n)
  {
    var ts := RingTris(n);
    var t := 2 * n + 2 * i;
    assert ts[t] == ConnectorTri(n, i, false) by {
      assert (2 * i) / 2 == i && (2 * i) % 2 == 0;
    }
    assert ts[t + 1] == ConnectorTri(n, i, true) by {
      assert (2 * i + 1) / 2 == i && (2 * i + 1) % 2 == 1;
    }
    FlattenAt(ts, t);
    FlattenAt(ts, t + 1);
    if w == 0 {
      assert RingIndices(n)[3 * t] == n + 3 * i + w;
    } else if w == 1 {
      assert RingIndices(n)[3 * (t + 1) + 2] == n + 3 * i + w;
    } else {
      assert RingIndices(n)[3 * t + 2] == n + 3 * i + w;
    }
  }

  /** No vertex is orphaned: the ring alone references each of the `4n` slots. */
  lemma RingReferencesEverySlot(n: int)
    requires n >= 1
    ensures forall v :: 0 <= v < 4 * n ==> v in RingIndices(n)
  {
    forall v | 0 <= v < 4 * n
      ensures v in RingIndices(n)
    {
      match SlotAt(n, v)
      case Base(i) =>
        BaseReferenced(n, i);
      case Offset(i, w) =>
        OffsetReferenced(n, i, w);
    }
  }

  // ---------------------------------------------------------------------
  // Winding

  function Rotate(t: Tri): Tri {
    Tri(t.b, t.c, t.a)
  }

  function Reverse(t: Tri): Tri {
    Tri(t.c, t.b, t.a)
  }

  /** `u` is the triangle `t` read from another corner, same orientation. */
  predicate SameWinding(t: Tri, u: Tri) {
    u == t || u == Rotate(t) || u == Rotate(Rotate(t))
  }

  /** `u` has the corners of `t` in the opposite orientation. */
  predicate OppositeWinding(t: Tri, u: Tri) {
    SameWinding(Reverse(t), u)
  }

  /** Swapping the first two corners reverses the winding. */
  function SwapFirst(t: Tri): (u: Tri)
    ensures OppositeWinding(t, u)
  {
    Tri(t.b, t.a, t.c)
  }
}
