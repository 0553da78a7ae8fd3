/**
 * The circle renderer of vsg-core (`renderers/circle.rs`): a centre vertex and a ring of
 * `RING` vertices, the fan of triangles over them, uploaded into a fresh `Triangle`.
 */
module CircleRenderer {
  import opened Common
  import opened RenderPass
  import opened TriangleRenderer
  import Fan

  /** The `i`-th ring vertex: angle `TAU * i / RING` at distance `radius` from the centre. */
  function RingVertex(x: real, y: real, radius: real, color: Rgba): nat -> Vertex2D
  {
    (i: nat) => Vertex2D(OnRing(Point(x, y), radius, i, Fan.RING, Tau), color)
  }

  /** The vertex list: the centre first, then the ring. */
  function Vertices(x: real, y: real, radius: real, color: Rgba): seq<Vertex2D>
  {
    [Vertex2D(At(Point(x, y)), color)] + Fan.Ring(Fan.RING, RingVertex(x, y, radius, color))
  }

  /**
   * There are 1025 vertices: the centre `(x, y)` first, then ring vertex `i` at position `1 + i`;
   * every vertex carries `color`.
   */
  lemma VerticesShape(x: real, y: real, radius: real, color: Rgba)
    ensures var vs := Vertices(x, y, radius, color);
            && |vs| == 1025
            && vs[0].position == At(Point(x, y))
            && (forall i | 0 <= i < 1025 :: vs[i].color == color)
            && (forall i | 0 <= i < Fan.RING :: vs[1 + i].position == OnRing(Point(x, y), radius, i, Fan.RING, Tau))
  {
    var vs := Vertices(x, y, radius, color);
    var ring := Fan.Ring(Fan.RING, RingVertex(x, y, radius, color));
    forall i | 0 <= i < Fan.RING
      ensures vs[1 + i] == RingVertex(x, y, radius, color)(i)
    {
      assert vs[1 + i] == ring[i];
    }
  }

  datatype Circle = Circle(size: real, ctr: Point, triangles: Triangle) {

    function Calls(): seq<Call>
      reads triangles
    {
      triangles.Calls()
    }

    method Render(pass: seq<Call>) returns (after: seq<Call>)
      ensures after == pass + Calls()
    {
      after := triangles.Render(pass);
    }
  }

  /**
   * What `Circle::new(x, y, radius, color)` holds: size 0.3 whatever the radius, centre
   * `(x, y)`, and a triangle prepared with the vertex list, the fan indices and their count.
   */
  ghost predicate Built(c: Circle, x: real, y: real, radius: real, color: Rgba)
    reads c.triangles
  {
    && c.size == 0.3
    && c.ctr == Point(x, y)
    && c.triangles.vertexBuffer == Some(Vertices(x, y, radius, color))
    && c.triangles.indexBuffer == Some(Fan.CircleIndices(Fan.RING))
    && c.triangles.numIndices == Some(3 * Fan.RING)
  }

  method NewCircle(x: real, y: real, radius: real, color: Rgba) returns (c: Circle)
    ensures fresh(c.triangles)
    ensures Built(c, x, y, radius, color)
  {
    var vertices := Fan.PushRing(Vertex2D(At(Point(x, y)), color), Fan.RING, RingVertex(x, y, radius, color));
    var indices := Fan.PushFanIndices(Fan.RING);
    Fan.CircleIndicesShape(Fan.RING);
    var triangles := new Triangle();
    triangles.Prepare(vertices, indices);
    c := Circle(0.3, Point(x, y), triangles);
  }
}
