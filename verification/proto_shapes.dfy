/**
 * The shape builders of the early prototype (`shapes.rs`): each records a render bundle that
 * sets the pipeline, binds a vertex and an index buffer and draws all of its indices. The
 * square and the cross take the absolute values of their inputs and centre themselves on the
 * origin; the circle is a triangle fan around the given centre.
 */
module ProtoShapes {
  import opened Common
  import Fan

  /** A vertex of the prototype's pipeline (`Vertex { position: [f32; 3], color: [f32; 3] }`); z is always 0. */
  datatype Vertex = Vertex(position: Position, color: Rgb)

  /** The colour of every square and cross vertex and of the circle's centre. */
  const WHITE: Rgb := Rgb(1.0, 1.0, 1.0)
  /** The colour of the circle's ring vertices. */
  const RING_COLOR: Rgb := Rgb(0.5, 0.2, 0.1)
  /** The radius of every prototype circle, whatever the caller asked for. */
  const RADIUS: real := 0.5

  /**
   * A recorded render bundle: `set_pipeline`, `set_vertex_buffer(0, vertices)`,
   * `set_index_buffer(indices, Uint16)` and `draw_indexed(0..numIndices, 0, 0..1)`.
   */
  datatype Bundle = Bundle(vertices: seq<Vertex>, indices: seq<nat>, numIndices: nat)

  /** The point of an exact vertex. */
  function PointOf(v: Vertex): Point
    requires v.position.At?
  {
    v.position.p
  }

  /**
   * A white axis-aligned quad centred on the origin, corners in the order `(-w, -h)`, `(-w, h)`,
   * `(w, -h)`, `(w, h)`.
   */
  function Quad(w: real, h: real): (vs: seq<Vertex>)
    ensures |vs| == 4
    ensures forall i | 0 <= i < 4 :: vs[i].color == WHITE && vs[i].position.At?
  {
    [ Vertex(At(Point(-w, -h)), WHITE),
      Vertex(At(Point(-w, h)), WHITE),
      Vertex(At(Point(w, -h)), WHITE),
      Vertex(At(Point(w, h)), WHITE) ]
  }

  /** The two triangles of a quad, `(0, 2, 1)` and `(2, 3, 1)`. */
  const QUAD_INDICES: seq<nat> := [0, 2, 1, 2, 3, 1]

  /** The cross: the triangles of its first quad, then the same two over the second quad. */
  const CROSS_INDICES: seq<nat> := [0, 2, 1, 2, 3, 1, 4, 6, 5, 6, 7, 5]

  /** The twice-signed area of the `t`-th triangle of `indices` over `vs`. */
  function TriangleWinding(vs: seq<Vertex>, indices: seq<nat>, t: nat): real
    requires 3 * t + 3 <= |indices|
    requires forall k | 3 * t <= k < 3 * t + 3 :: indices[k] < |vs| && vs[indices[k]].position.At?
  {
    Winding(PointOf(vs[indices[3 * t]]), PointOf(vs[indices[3 * t + 1]]), PointOf(vs[indices[3 * t + 2]]))
  }

  /** The quad spans `-w..w` by `-h..h`, with the origin halfway between opposite corners. */
  lemma QuadCorners(w: real, h: real)
    ensures var vs := Quad(w, h);
            && PointOf(vs[0]) == Point(-w, -h) && PointOf(vs[3]) == Point(w, h)
            && PointOf(vs[1]) == Point(-w, h) && PointOf(vs[2]) == Point(w, -h)
  {
  }

  /**
   * Both triangles of a quad wind with twice-signed area `4wh`: counter-clockwise, so never
   * culled, whenever `w` and `h` are both positive.
   */
  lemma {:induction false} QuadWinding(w: real, h: real)
    ensures forall j | 0 <= j < 6 :: QUAD_INDICES[j] < 4
    ensures TriangleWinding(Quad(w, h), QUAD_INDICES, 0) == 4.0 * w * h
    ensures TriangleWinding(Quad(w, h), QUAD_INDICES, 1) == 4.0 * w * h
  {
    var vs := Quad(w, h);
    assert TriangleWinding(vs, QUAD_INDICES, 0) == (2.0 * w) * (2.0 * h) - 0.0 * 0.0;
    assert TriangleWinding(vs, QUAD_INDICES, 1) == 0.0 * (0.0 - (-2.0 * w)) - (2.0 * h) * (-2.0 * w);
  }

  /** `create_cross_bundle(x, y)`. */
  function CrossBundle(x: real, y: real): Bundle
  {
    var x, y := Abs(x), Abs(y);
    Bundle(Quad(x / 2.0, y) + Quad(x, y / 2.0), CROSS_INDICES, |CROSS_INDICES|)
  }

  /**
   * The cross has 8 white vertices: a tall bar `|x|` wide and `2|y|` high, then a wide bar `2|x|`
   * wide and `|y|` high, both centred on the origin. Its 12 indices draw two triangles on each
   * bar, all inside the 8 vertices, and the bundle draws every index.
   */
  lemma CrossBundleShape(x: real, y: real)
    ensures var b := CrossBundle(x, y);
            && |b.vertices| == 8
            && b.vertices[..4] == Quad(Abs(x) / 2.0, Abs(y))
            && b.vertices[4..] == Quad(Abs(x), Abs(y) / 2.0)
            && (forall i | 0 <= i < 8 :: b.vertices[i].color == WHITE && b.vertices[i].position.At?)
            && |b.indices| == 12 && b.numIndices == |b.indices|
            && (forall j | 0 <= j < 12 :: b.indices[j] < 8)
  {
    var b := CrossBundle(x, y);
    var tall, wide := Quad(Abs(x) / 2.0, Abs(y)), Quad(Abs(x), Abs(y) / 2.0);
    assert b.vertices[..4] == tall && b.vertices[4..] == wide;
    forall i | 0 <= i < 8
      ensures b.vertices[i].color == WHITE && b.vertices[i].position.At?
    {
      if i >= 4 {
        assert b.vertices[i] == wide[i - 4];
      }
    }
  }

  /**
   * Every triangle of the cross winds with twice-signed area `2|x||y|`: all four are
   * counter-clockwise, so none is culled, whenever `x` and `y` are non-zero.
   */
  lemma CrossBundleWinding(x: real, y: real)
    ensures forall t | 0 <= t < 4 :: TriangleWinding(CrossBundle(x, y).vertices, CROSS_INDICES, t) == 2.0 * Abs(x) * Abs(y)
    ensures x != 0.0 && y != 0.0 ==> 2.0 * Abs(x) * Abs(y) > 0.0
  {
    var a, c := Abs(x), Abs(y);
    var tall, wide := Quad(a / 2.0, c), Quad(a, c / 2.0);
    assert CrossBundle(x, y).vertices == tall + wide;
    QuadWinding(a / 2.0, c);
    QuadWinding(a, c / 2.0);
    assert 4.0 * (a / 2.0) * c == 2.0 * a * c == 4.0 * a * (c / 2.0);
    QuadPairWindings(tall, wide, 2.0 * a * c);
    if x != 0.0 && y != 0.0 {
      assert a * c > 0.0;
    }
  }

  /** Two quads whose triangles all wind alike give a cross whose four triangles wind the same way. */
  lemma QuadPairWindings(p: seq<Vertex>, q: seq<Vertex>, area: real)
    requires |p| == 4 && |q| == 4
    requires forall i | 0 <= i < 4 :: p[i].position.At? && q[i].position.At?
    requires TriangleWinding(p, QUAD_INDICES, 0) == area == TriangleWinding(q, QUAD_INDICES, 0)
    requires TriangleWinding(p, QUAD_INDICES, 1) == area == TriangleWinding(q, QUAD_INDICES, 1)
    ensures forall t | 0 <= t < 4 :: TriangleWinding(p + q, CROSS_INDICES, t) == area
  {
    var vs := p + q;
    assert vs[4] == q[0] && vs[5] == q[1] && vs[6] == q[2] && vs[7] == q[3];
    assert TriangleWinding(vs, CROSS_INDICES, 0) == TriangleWinding(p, QUAD_INDICES, 0);
    assert TriangleWinding(vs, CROSS_INDICES, 1) == TriangleWinding(p, QUAD_INDICES, 1);
    assert TriangleWinding(vs, CROSS_INDICES, 2) == TriangleWinding(q, QUAD_INDICES, 0);
    assert TriangleWinding(vs, CROSS_INDICES, 3) == TriangleWinding(q, QUAD_INDICES, 1);
  }

  /** Only the sizes of the inputs matter: mirroring either input gives the same cross. */
  lemma CrossBundleIgnoresSigns(x: real, y: real)
    ensures CrossBundle(-x, y) == CrossBundle(x, y) == CrossBundle(x, -y)
  {
    assert Abs(-x) == Abs(x) && Abs(-y) == Abs(y);
  }

  /** `create_square_bundle(x, y)`. */
  function SquareBundle(x: real, y: real): Bundle
  {
    Bundle(Quad(Abs(x), Abs(y)), QUAD_INDICES, |QUAD_INDICES|)
  }

  /**
   * The square has 4 white corners at `(±|x|, ±|y|)`: it is centred on the origin, `2|x|` wide
   * and `2|y|` high, and both of its triangles are counter-clockwise when `x` and `y` are
   * non-zero. The bundle draws all 6 indices; only the sizes of `x` and `y` matter.
   */
  lemma SquareBundleShape(x: real, y: real)
    ensures var b := SquareBundle(x, y);
            && |b.vertices| == 4
            && PointOf(b.vertices[3]).x - PointOf(b.vertices[0]).x == 2.0 * Abs(x)
            && PointOf(b.vertices[3]).y - PointOf(b.vertices[0]).y == 2.0 * Abs(y)
            && PointOf(b.vertices[0]).x + PointOf(b.vertices[3]).x == 0.0 && PointOf(b.vertices[0]).y + PointOf(b.vertices[3]).y == 0.0
            && |b.indices| == 6 && b.numIndices == |b.indices|
            && (forall j | 0 <= j < 6 :: b.indices[j] < 4)
            && (forall t | 0 <= t < 2 :: TriangleWinding(b.vertices, b.indices, t) == 4.0 * Abs(x) * Abs(y))
            && (x != 0.0 && y != 0.0 ==> forall t | 0 <= t < 2 :: TriangleWinding(b.vertices, b.indices, t) > 0.0)
    ensures SquareBundle(-x, y) == SquareBundle(x, y) == SquareBundle(x, -y)
  {
    QuadCorners(Abs(x), Abs(y));
    QuadWinding(Abs(x), Abs(y));
    if x != 0.0 && y != 0.0 {
      assert Abs(x) * Abs(y) > 0.0;
    }
  }

  /** The `i`-th ring vertex: `0.5 * (cos, sin)(6.28 * i / 1024)` around `(x, y)`, in the ring colour. */
  function RingVertex(x: real, y: real): nat -> Vertex
  {
    (i: nat) => Vertex(OnRing(Point(x, y), RADIUS, i, Fan.RING, Approx628), RING_COLOR)
  }

  /** The vertices of a prototype circle: its white centre, then the ring. */
  function CircleVertices(x: real, y: real): seq<Vertex>
  {
    [Vertex(At(Point(x, y)), WHITE)] + Fan.Ring(Fan.RING, RingVertex(x, y))
  }

  /**
   * A prototype circle has 1025 vertices: the white centre `(x, y)` first (no absolute value is
   * taken), then ring vertex `i` at position `1 + i`, at radius 0.5 and in the ring colour.
   */
  lemma CircleVerticesShape(x: real, y: real)
    ensures var vs := CircleVertices(x, y);
            && |vs| == 1025
            && vs[0] == Vertex(At(Point(x, y)), WHITE)
            && (forall i | 0 <= i < Fan.RING ::
                  vs[1 + i] == Vertex(OnRing(Point(x, y), RADIUS, i, Fan.RING, Approx628), RING_COLOR))
  {
    var vs := CircleVertices(x, y);
    var ring := Fan.Ring(Fan.RING, RingVertex(x, y));
    forall i | 0 <= i < Fan.RING
      ensures vs[1 + i] == RingVertex(x, y)(i)
    {
      assert vs[1 + i] == ring[i];
    }
  }

  /** `create_circle_bundle(x, y)`: the vertex loop, the index loop, and a draw of every index. */
  method CircleBundle(x: real, y: real) returns (b: Bundle)
    ensures b.vertices == CircleVertices(x, y)
    ensures b.indices == Fan.CircleIndices(Fan.RING)
    ensures b.numIndices == |b.indices| == 3 * Fan.RING
  {
    var vertices := Fan.PushRing(Vertex(At(Point(x, y)), WHITE), Fan.RING, RingVertex(x, y));
    var indices := Fan.PushFanIndices(Fan.RING);
    Fan.CircleIndicesShape(Fan.RING);
    b := Bundle(vertices, indices, |indices|);
  }
}
