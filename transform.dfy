/** The per-series transform that render applies before each draw: a map to device space,
    a filter that clips whole x, y pairs on x, and a reduce that packs each surviving pair
    with the series colour; and the vertex layout that draw declares for the packed array. */
module Transform {
  import opened OriginFlags
  import opened SeriesStore

  /** The origin offsets and visible ranges that render reads. */
  datatype Viewport = Viewport(originX: int, originY: int, rangeX: real, rangeY: real) {
    /** Both ranges divide in the transform. */
    predicate Valid() {
      rangeX != 0.0 && rangeY != 0.0
    }
  }

  function Abs(x: real): real {
    if x < 0.0 then -x else x
  }

  /** A centred axis is scaled by 1, an edge-pinned one by 2. */
  function Factor(o: int): real {
    if o == 0 then 1.0 else 2.0
  }

  /** One raw coordinate in device space, for origin component o and range `range`. */
  function Scale(v: real, o: int, range: real): (n: real)
    requires range != 0.0
    ensures (n - o as real) * range == v * Factor(o)
  {
    var q := v * Factor(o) / range;
    assert q * range == v * Factor(o);
    q + o as real
  }

  /** The raw coordinate that Scale sends to device coordinate n. */
  function Unscale(n: real, o: int, range: real): real
    requires range != 0.0
  {
    (n - o as real) * range / Factor(o)
  }

  /** Scale loses nothing: it and Unscale undo each other. */
  lemma ScaleRoundTrip(v: real, o: int, range: real)
    requires range != 0.0
    ensures Unscale(Scale(v, o, range), o, range) == v
    ensures Scale(Unscale(v, o, range), o, range) == v
  {
    var f := Factor(o);
    assert v * f / range * range == v * f;
    assert (v * f) / f == v;
  }

  /** The edges of the visible span land exactly on the device edges -1 and 1. */
  lemma ScaleEdges(range: real)
    requires range != 0.0
    ensures Scale(0.0, -1, range) == -1.0 && Scale(range, -1, range) == 1.0
    ensures Scale(-range, 0, range) == -1.0 && Scale(range, 0, range) == 1.0
    ensures Scale(-range, 1, range) == -1.0 && Scale(0.0, 1, range) == 1.0
  {
    assert range * 2.0 / range == 2.0;
    assert -range * 2.0 / range == -2.0;
    assert range * 1.0 / range == 1.0;
    assert -range * 1.0 / range == -1.0;
  }

  /** The raw values an axis shows: [-range, range] when centred, [0, range] from the low
      edge and [-range, 0] from the high edge. */
  predicate InSpan(v: real, o: int, range: real) {
    if o == 0 then -range <= v <= range
    else if o == -1 then 0.0 <= v <= range
    else -range <= v <= 0.0
  }

  /** For a positive range, a raw value lands in [-1, 1] exactly when it lies in its axis's span. */
  lemma ScaleVisibleIffInSpan(v: real, o: int, range: real)
    requires range > 0.0 && IsOffset(o)
    ensures Abs(Scale(v, o, range)) <= 1.0 <==> InSpan(v, o, range)
  {
    var a := v * Factor(o);
    var q := a / range;
    assert Scale(v, o, range) == q + o as real;
    if o == 0 {
      assert a == v;
      DivBounds(a, range, 1.0);
      DivBounds(a, range, -1.0);
    } else {
      assert a == 2.0 * v;
      DivBounds(a, range, 2.0);
      DivBounds(a, range, 0.0);
      DivBounds(a, range, -2.0);
    }
  }

  /** Dividing by a positive real keeps the order against a bound scaled by it. */
  lemma DivBounds(a: real, r: real, c: real)
    requires r > 0.0
    ensures a / r <= c <==> a <= c * r
    ensures c <= a / r <==> c * r <= a
  {
    var q := a / r;
    assert q * r == a;
    assert c * r - q * r == (c - q) * r;
  }

  // ---------------------------------------------------------------------------
  // The chain as the source writes it

  /** The map stage: an even slot is an x, scaled on the x axis; an odd slot a y. */
  function ToDevice(data: seq<real>, v: Viewport): (m: seq<real>)
    requires v.Valid()
    ensures |m| == |data|
    ensures forall i :: 0 <= i < |data| ==>
      m[i] == if i % 2 == 0 then Scale(data[i], v.originX, v.rangeX) else Scale(data[i], v.originY, v.rangeY)
  {
    seq(|data|, i requires 0 <= i < |data| =>
      if i % 2 == 0 then Scale(data[i], v.originX, v.rangeX) else Scale(data[i], v.originY, v.rangeY))
  }

  /** The filter stage over the first n indices of m, in order: the value at index i is kept
      iff the value at the start of its pair, m[i - i % 2], has absolute value at most 1. */
  function ClipUpTo(m: seq<real>, n: nat): (r: seq<real>)
    requires n <= |m|
  {
    if n == 0 then []
    else
      var i := n - 1;
      ClipUpTo(m, i) + (if Abs(m[i - i % 2]) <= 1.0 then [m[i]] else [])
  }

  /** The filter stage over the whole mapped array: it only ever removes values. */
  function Clip(m: seq<real>): (r: seq<real>)
    ensures |r| <= |m|
    ensures multiset(r) <= multiset(m)
  {
    ClipKeepsValues(m, |m|);
    assert m[..|m|] == m;
    ClipUpTo(m, |m|)
  }

  /** The filter over the first n values keeps some of them and adds none. */
  lemma {:induction false} ClipKeepsValues(m: seq<real>, n: nat)
    requires n <= |m|
    ensures |ClipUpTo(m, n)| <= n
    ensures multiset(ClipUpTo(m, n)) <= multiset(m[..n])
  {
    if n > 0 {
      ClipKeepsValues(m, n - 1);
      assert m[..n] == m[..n - 1] + [m[n - 1]];
    }
  }

  /** The reduce stage, as a left fold: an even index contributes its value, an odd index its
      value followed by the four colour channels. */
  function Pack(f: seq<real>, c: Rgba): (r: seq<real>)
  {
    if |f| == 0 then []
    else
      var i := |f| - 1;
      Pack(f[..i], c) + (if i % 2 == 0 then [f[i]] else [f[i]] + c.Channels())
  }

  /** Packing keeps every value and adds the four colour channels after each odd index. */
  lemma {:induction false} PackLength(f: seq<real>, c: Rgba)
    ensures |Pack(f, c)| == |f| + 4 * (|f| / 2)
  {
    if |f| > 0 {
      PackLength(f[..|f| - 1], c);
    }
  }

  /** The array that render hands to draw for one series: the map/filter/reduce chain. */
  function SeriesVertices(s: Series, v: Viewport): seq<real>
    requires v.Valid()
  {
    Pack(Clip(ToDevice(s.data, v)), s.color)
  }

  // ---------------------------------------------------------------------------
  // Reference definition: which pairs survive, and the vertices they make

  datatype Point = Point(x: real, y: real)

  /** Pair j of a flat x, y list. */
  function PairAt(m: seq<real>, j: nat): Point
    requires 2 * j + 1 < |m|
  {
    Point(m[2 * j], m[2 * j + 1])
  }

  /** The indices among the first n pairs of a device-space list that survive clipping, in
      increasing order: exactly the pairs whose x lies in [-1, 1], the boundary included. */
  function Survivors(m: seq<real>, n: nat): (s: seq<nat>)
    requires 2 * n <= |m|
    ensures forall q :: 0 <= q < |s| ==> s[q] < n
    ensures forall q, q' :: 0 <= q < q' < |s| ==> s[q] < s[q']
    ensures forall j :: 0 <= j < n ==> (j in s <==> Abs(m[2 * j]) <= 1.0)
  {
    if n == 0 then []
    else Survivors(m, n - 1) + (if Abs(m[2 * (n - 1)]) <= 1.0 then [n - 1] else [])
  }

  /** The surviving pairs among the first n, in their original order, each with its own y. */
  function Kept(m: seq<real>, n: nat): (pts: seq<Point>)
    requires 2 * n <= |m|
  {
    var s := Survivors(m, n);
    seq(|s|, q requires 0 <= q < |s| => PairAt(m, s[q]))
  }

  /** Pair j of a raw x, y list, in device space. */
  function DevicePoint(data: seq<real>, j: nat, v: Viewport): Point
    requires v.Valid() && 2 * j + 1 < |data|
  {
    Point(Scale(data[2 * j], v.originX, v.rangeX), Scale(data[2 * j + 1], v.originY, v.rangeY))
  }

  /** The points of a series that remain on screen. */
  function Visible(data: seq<real>, v: Viewport): (pts: seq<Point>)
    requires v.Valid() && |data| % 2 == 0
  {
    Kept(ToDevice(data, v), |data| / 2)
  }

  /** Pair j of the mapped list is the device point of pair j. */
  lemma MappedPair(data: seq<real>, v: Viewport, j: nat)
    requires v.Valid() && 2 * j + 1 < |data|
    ensures PairAt(ToDevice(data, v), j) == DevicePoint(data, j, v)
  {
    assert (2 * j) % 2 == 0 && (2 * j + 1) % 2 == 1;
  }

  /** The visible points are the device points of the surviving pairs, in order, and a pair
      survives exactly when its device x lies in [-1, 1]. */
  lemma VisibleAreSurvivingPoints(data: seq<real>, v: Viewport)
    requires v.Valid() && |data| % 2 == 0
    ensures var s := Survivors(ToDevice(data, v), |data| / 2);
            && |Visible(data, v)| == |s|
            && (forall q :: 0 <= q < |s| ==> Visible(data, v)[q] == DevicePoint(data, s[q], v))
            && (forall j :: 0 <= j < |data| / 2 ==> (j in s <==> Abs(DevicePoint(data, j, v).x) <= 1.0))
  {
    var m := ToDevice(data, v);
    forall j | 0 <= j < |data| / 2
      ensures PairAt(m, j) == DevicePoint(data, j, v)
    {
      MappedPair(data, v, j);
    }
  }

  /** Field f (0..5) of a packed vertex: x, y, then red, green, blue, alpha. */
  function VertexField(p: Point, c: Rgba, f: int): real
    requires 0 <= f < 6
  {
    if f == 0 then p.x else if f == 1 then p.y else c.Channels()[f - 2]
  }

  /** The vertex array for a list of points: six floats per point, position then colour. */
  function Vertices(pts: seq<Point>, c: Rgba): (r: seq<real>)
    ensures |r| == 6 * |pts|
  {
    seq(6 * |pts|, i requires 0 <= i < 6 * |pts| => VertexField(pts[i / 6], c, i % 6))
  }

  // ---------------------------------------------------------------------------
  // The chain computes the reference

  /** The filter keeps or drops the two slots of a pair together, on the pair's x: n values
      are n - 2 values and the pair that starts at n - 2. */
  lemma ClipPair(m: seq<real>, n: nat)
    requires 2 <= n <= |m| && n % 2 == 0
    ensures ClipUpTo(m, n)
         == ClipUpTo(m, n - 2) + (if Abs(m[n - 2]) <= 1.0 then [m[n - 2], m[n - 1]] else [])
  {
    assert (n - 1) % 2 == 1 && (n - 2) % 2 == 0;
  }

  /** Clipping whole pairs leaves an even number of values. */
  lemma {:induction false} ClipEven(m: seq<real>, n: nat)
    requires n <= |m| && n % 2 == 0
    ensures |ClipUpTo(m, n)| % 2 == 0
  {
    if n > 0 {
      ClipPair(m, n);
      ClipEven(m, n - 2);
    }
  }

  /** Packing one more whole pair appends it followed by the colour. */
  lemma PackPair(f: seq<real>, a: real, b: real, c: Rgba)
    requires |f| % 2 == 0
    ensures Pack(f + [a, b], c) == Pack(f, c) + [a, b] + c.Channels()
  {
    var g := f + [a, b];
    assert g[..|g| - 1] == f + [a] && g[|g| - 1] == b;
    assert (f + [a])[..|f|] == f && (f + [a])[|f|] == a;
    assert (|g| - 1) % 2 == 1 && |f| % 2 == 0;
    calc {
      Pack(g, c);
      Pack(f + [a], c) + [b] + c.Channels();
      Pack(f, c) + [a] + [b] + c.Channels();
    }
  }

  /** One more point appends its six fields to the vertex array. */
  lemma VerticesSnoc(pts: seq<Point>, p: Point, c: Rgba)
    ensures Vertices(pts + [p], c) == Vertices(pts, c) + [p.x, p.y] + c.Channels()
  {
    var lhs := Vertices(pts + [p], c);
    var rhs := Vertices(pts, c) + [p.x, p.y] + c.Channels();
    var n := 6 * |pts|;
    forall i | 0 <= i < |lhs| ensures lhs[i] == rhs[i] {
      if i < n {
        assert i / 6 < |pts|;
      } else {
        assert i / 6 == |pts| && i % 6 == i - n;
      }
    }
  }

  /** One more pair adds its point to the kept points exactly when its x is in [-1, 1]. */
  lemma KeptSnoc(m: seq<real>, j: nat, n: nat)
    requires 0 < j && n == 2 * j && n <= |m|
    ensures Abs(m[n - 2]) <= 1.0 ==> Kept(m, j) == Kept(m, j - 1) + [Point(m[n - 2], m[n - 1])]
    ensures Abs(m[n - 2]) > 1.0 ==> Kept(m, j) == Kept(m, j - 1)
  {
    var s := Survivors(m, j - 1);
    assert 2 * (j - 1) == n - 2;
    var t := Survivors(m, j);
    assert t == s + (if Abs(m[n - 2]) <= 1.0 then [j - 1] else []);
    var k, k' := Kept(m, j), Kept(m, j - 1);
    assert |k| == |t| && |k'| == |s|;
    forall q | 0 <= q < |s| ensures k[q] == k'[q] {
      assert t[q] == s[q];
    }
    if Abs(m[n - 2]) <= 1.0 {
      assert k[|s|] == PairAt(m, j - 1);
      assert k == k' + [Point(m[n - 2], m[n - 1])];
    }
  }

  /** A pair in [-1, 1] extends the chain's output and the reference by the same vertex. */
  lemma ChainKeep(m: seq<real>, c: Rgba, j: nat, n: nat)
    requires 0 < j && n == 2 * j && n <= |m| && Abs(m[n - 2]) <= 1.0
    requires Pack(ClipUpTo(m, n - 2), c) == Vertices(Kept(m, j - 1), c)
    ensures Pack(ClipUpTo(m, n), c) == Vertices(Kept(m, j), c)
  {
    var p := Point(m[n - 2], m[n - 1]);
    ClipPair(m, n);
    assert Pack(ClipUpTo(m, n), c) == Pack(ClipUpTo(m, n - 2), c) + [p.x, p.y] + c.Channels() by {
      ClipEven(m, n - 2);
      PackPair(ClipUpTo(m, n - 2), p.x, p.y, c);
    }
    KeptSnoc(m, j, n);
    VerticesSnoc(Kept(m, j - 1), p, c);
  }

  /** A pair outside [-1, 1] extends neither the chain's output nor the reference. */
  lemma ChainDrop(m: seq<real>, c: Rgba, j: nat, n: nat)
    requires 0 < j && n == 2 * j && n <= |m| && Abs(m[n - 2]) > 1.0
    requires Pack(ClipUpTo(m, n - 2), c) == Vertices(Kept(m, j - 1), c)
    ensures Pack(ClipUpTo(m, n), c) == Vertices(Kept(m, j), c)
  {
    assert ClipUpTo(m, n) == ClipUpTo(m, n - 2) by {
      ClipPair(m, n);
    }
    assert Kept(m, j) == Kept(m, j - 1) by {
      KeptSnoc(m, j, n);
    }
  }

  /** Over no pairs, the chain and the reference both produce nothing. */
  lemma ChainEmpty(m: seq<real>, c: Rgba)
    ensures Pack(ClipUpTo(m, 0), c) == Vertices(Kept(m, 0), c) == []
  {
    assert Vertices([], c) == [];
  }

  /** The chain over the first j pairs (n = 2 * j values) of a mapped list produces the
      packed vertices of the surviving pairs. */
  lemma {:induction false} ChainUpTo(m: seq<real>, c: Rgba, j: nat, n: nat)
    requires n == 2 * j && n <= |m|
    ensures Pack(ClipUpTo(m, n), c) == Vertices(Kept(m, j), c)
  {
    if j == 0 {
      ChainEmpty(m, c);
    } else {
      ChainUpTo(m, c, j - 1, n - 2);
      ChainStep(m, c, j, n);
    }
  }

  /** Whether or not pair j - 1 survives, the chain and the reference stay equal. */
  lemma ChainStep(m: seq<real>, c: Rgba, j: nat, n: nat)
    requires 0 < j && n == 2 * j && n <= |m|
    requires Pack(ClipUpTo(m, n - 2), c) == Vertices(Kept(m, j - 1), c)
    ensures Pack(ClipUpTo(m, n), c) == Vertices(Kept(m, j), c)
  {
    if Abs(m[n - 2]) <= 1.0 {
      ChainKeep(m, c, j, n);
    } else {
      ChainDrop(m, c, j, n);
    }
  }

  /** The map/filter/reduce chain produces exactly the packed vertices of the visible
      points: whole pairs, each with its own y, in their original order. */
  lemma SeriesVerticesAreVisible(s: Series, v: Viewport)
    requires v.Valid() && |s.data| % 2 == 0
    ensures SeriesVertices(s, v) == Vertices(Visible(s.data, v), s.color)
  {
    var m := ToDevice(s.data, v);
    ChainUpTo(m, s.color, |m| / 2, |m|);
    assert m[..|m|] == m;
  }

  // ---------------------------------------------------------------------------
  // The vertex layout that draw declares

  const VertexLength: nat := 2     // vec2(x, y)
  const ColorLength: nat := 4      // vec4(r, g, b, a)
  const BytesPerElement: nat := 4  // one Float32
  const Stride: nat := (VertexLength + ColorLength) * BytesPerElement
  const PositionOffset: nat := 0
  const ColorOffset: nat := VertexLength * BytesPerElement

  /** The vertex count draw passes to drawArrays. */
  function VertexCount(buffer: seq<real>): (k: nat)
    ensures k * (VertexLength + ColorLength) <= |buffer| < (k + 1) * (VertexLength + ColorLength)
  {
    |buffer| / (VertexLength + ColorLength)
  }

  /** The floats an attribute of `width` floats at byte `offset` reads for vertex k. */
  function AttributeAt(buffer: seq<real>, k: nat, offset: nat, width: nat): seq<real>
    requires (k * Stride + offset) / BytesPerElement + width <= |buffer|
  {
    var start := (k * Stride + offset) / BytesPerElement;
    buffer[start..start + width]
  }

  /** Read through draw's attribute layout, a packed vertex array holds one vertex per point:
      the count is the number of points, and vertex k's position and colour are point k's. */
  lemma VerticesLayout(pts: seq<Point>, c: Rgba, k: nat)
    requires k < |pts|
    ensures Stride == 24 && ColorOffset == 8
    ensures VertexCount(Vertices(pts, c)) == |pts|
    ensures AttributeAt(Vertices(pts, c), k, PositionOffset, VertexLength) == [pts[k].x, pts[k].y]
    ensures AttributeAt(Vertices(pts, c), k, ColorOffset, ColorLength) == c.Channels()
  {
    VerticesCount(pts, c);
    VertexBlock(pts, c, k);
    var r := Vertices(pts, c);
    var block := r[6 * k..6 * k + 6];
    assert (k * Stride + PositionOffset) / BytesPerElement == 6 * k;
    assert AttributeAt(r, k, PositionOffset, VertexLength) == block[..2];
    assert (k * Stride + ColorOffset) / BytesPerElement == 6 * k + 2;
    assert AttributeAt(r, k, ColorOffset, ColorLength) == block[2..];
  }

  /** Vertex k of a packed array is point k's position followed by the colour. */
  lemma VertexBlock(pts: seq<Point>, c: Rgba, k: nat)
    requires k < |pts|
    ensures Vertices(pts, c)[6 * k..6 * k + 6] == [pts[k].x, pts[k].y] + c.Channels()
  {
    var r := Vertices(pts, c);
    forall f | 0 <= f < 6 ensures r[6 * k + f] == VertexField(pts[k], c, f) {
      assert (6 * k + f) / 6 == k && (6 * k + f) % 6 == f;
    }
  }

  /** Six floats per point: draw's vertex count is the number of points. */
  lemma VerticesCount(pts: seq<Point>, c: Rgba)
    ensures VertexCount(Vertices(pts, c)) == |pts|
  {
    assert |Vertices(pts, c)| == 6 * |pts|;
  }

  /** The count draw issues for a series is the number of its surviving points. */
  lemma SeriesVertexCount(s: Series, v: Viewport)
    requires v.Valid() && |s.data| % 2 == 0
    ensures |SeriesVertices(s, v)| == 6 * |Survivors(ToDevice(s.data, v), |s.data| / 2)|
    ensures VertexCount(SeriesVertices(s, v)) == |Survivors(ToDevice(s.data, v), |s.data| / 2)|
  {
    SeriesVerticesAreVisible(s, v);
  }

  lemma VerticesOfTwo(p0: Point, p1: Point, c: Rgba)
    ensures Vertices([p0, p1], c) == [p0.x, p0.y] + c.Channels() + [p1.x, p1.y] + c.Channels()
  {
    VerticesSnoc([], p0, c);
    VerticesSnoc([p0], p1, c);
    assert [] + [p0] == [p0] && [p0] + [p1] == [p0, p1];
    assert Vertices([], c) == [];
  }

  /** Centred origin, ranges 10: the points (0, 0) and (5, 5) become the vertices (0, 0) and
      (0.5, 0.5) in the series colour, and (20, 20) is clipped because its device x is 2. */
  lemma CenteredExample(c: Rgba, data: seq<real>, v: Viewport)
    requires data == [0.0, 0.0, 5.0, 5.0, 20.0, 20.0] && v == Viewport(0, 0, 10.0, 10.0)
    ensures SeriesVertices(Series(c, data), v) == [0.0, 0.0] + c.Channels() + [0.5, 0.5] + c.Channels()
  {
    SeriesVerticesAreVisible(Series(c, data), v);
    CenteredVisible(data, v);
    VerticesOfTwo(Point(0.0, 0.0), Point(0.5, 0.5), c);
  }

  lemma CenteredVisible(data: seq<real>, v: Viewport)
    requires data == [0.0, 0.0, 5.0, 5.0, 20.0, 20.0] && v == Viewport(0, 0, 10.0, 10.0)
    ensures Visible(data, v) == [Point(0.0, 0.0), Point(0.5, 0.5)]
  {
    var m := ToDevice(data, v);
    assert m == [0.0, 0.0, 0.5, 0.5, 2.0, 2.0];
    assert Survivors(m, 2) == [0, 1];
  }

  /** Clipping drops the middle pair of three, so the line strip joins the outer two points
      directly: no segment is cut at the boundary. */
  lemma ClippedPointIsBridged(m: seq<real>)
    requires |m| == 6 && Abs(m[0]) <= 1.0 && Abs(m[2]) > 1.0 && Abs(m[4]) <= 1.0
    ensures Kept(m, 3) == [PairAt(m, 0), PairAt(m, 2)]
  {
    assert Survivors(m, 2) == [0];
  }
}
