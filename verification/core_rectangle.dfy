/**
 * The rectangle renderer of vsg-core (`renderers/rectangle.rs`): four corners around a centre,
 * two triangles, uploaded into a fresh `Triangle`.
 */
module RectangleRenderer {
  import opened Common
  import opened RenderPass
  import opened TriangleRenderer

  /** Vertex positions of an exact (non-ring) vertex. */
  function X(v: Vertex2D): real
    requires v.position.At?
  {
    v.position.p.x
  }

  function Y(v: Vertex2D): real
    requires v.position.At?
  {
    v.position.p.y
  }

  /** The point halfway between two exact vertices. */
  function Mid(a: Vertex2D, b: Vertex2D): Point
    requires a.position.At? && b.position.At?
  {
    Point((X(a) + X(b)) / 2.0, (Y(a) + Y(b)) / 2.0)
  }

  /**
   * The four corners, in the order bottom-left, top-left, bottom-right, top-right (for a
   * positive width and height): an axis-aligned box centred on `(x, y)` whose signed extents are
   * exactly `width` and `height` (no absolute value is taken), every corner in `color`.
   */
  function Corners(x: real, y: real, width: real, height: real, color: Rgba): (vs: seq<Vertex2D>)
    ensures |vs| == 4
    ensures forall i | 0 <= i < 4 :: vs[i].color == color && vs[i].position.At?
    ensures Mid(vs[0], vs[3]) == Point(x, y) && Mid(vs[1], vs[2]) == Point(x, y)
    ensures X(vs[0]) == X(vs[1]) && X(vs[2]) == X(vs[3]) && X(vs[2]) - X(vs[0]) == width
    ensures Y(vs[0]) == Y(vs[2]) && Y(vs[1]) == Y(vs[3]) && Y(vs[1]) - Y(vs[0]) == height
  {
    [ Vertex2D(At(Point(x - width / 2.0, y - height / 2.0)), color),
      Vertex2D(At(Point(x - width / 2.0, y + height / 2.0)), color),
      Vertex2D(At(Point(x + width / 2.0, y - height / 2.0)), color),
      Vertex2D(At(Point(x + width / 2.0, y + height / 2.0)), color) ]
  }

  /** The two triangles `(0, 2, 1)` and `(2, 3, 1)`. */
  const INDICES: seq<nat> := [0, 2, 1, 2, 3, 1]

  /** The index list is two triangles over the four corners that together use every corner. */
  lemma IndicesCoverQuad()
    ensures |INDICES| == 6
    ensures forall j | 0 <= j < 6 :: INDICES[j] < 4
    ensures forall v | 0 <= v < 4 :: v in INDICES
  {
  }

  /**
   * Both triangles wind with twice-signed area `width * height`. The pipeline culls back faces
   * of counter-clockwise-front triangles, so the rectangle is drawn only when
   * `width * height > 0`: a negative width or height (and not both) makes it invisible.
   */
  lemma {:induction false} CornersWinding(x: real, y: real, width: real, height: real, color: Rgba)
    ensures var vs := Corners(x, y, width, height, color);
            Winding(vs[0].position.p, vs[2].position.p, vs[1].position.p) == width * height &&
            Winding(vs[2].position.p, vs[3].position.p, vs[1].position.p) == width * height
  {
    var vs := Corners(x, y, width, height, color);
    assert X(vs[2]) - X(vs[0]) == width && Y(vs[1]) - Y(vs[0]) == height;
    assert Y(vs[2]) - Y(vs[0]) == 0.0 && X(vs[1]) - X(vs[0]) == 0.0;
    assert X(vs[3]) - X(vs[2]) == 0.0 && Y(vs[3]) - Y(vs[2]) == height;
    assert Y(vs[1]) - Y(vs[2]) == height && X(vs[1]) - X(vs[2]) == -width;
  }

  datatype Rectangle = Rectangle(size: real, ctr: Point, pipeline: Triangle) {

    /** The calls `render` makes: those of its one triangle. */
    function Calls(): seq<Call>
      reads pipeline
    {
      pipeline.Calls()
    }

    method Render(pass: seq<Call>) returns (after: seq<Call>)
      ensures after == pass + Calls()
    {
      after := pipeline.Render(pass);
    }
  }

  /**
   * What `Rectangle::new(x, y, width, height, color)` holds: size 0.3 whatever the extents, the
   * centre unchanged, and a triangle prepared with the corners, the two triangles and count 6.
   */
  ghost predicate Built(r: Rectangle, x: real, y: real, width: real, height: real, color: Rgba)
    reads r.pipeline
  {
    && r.size == 0.3
    && r.ctr == Point(x, y)
    && r.pipeline.vertexBuffer == Some(Corners(x, y, width, height, color))
    && r.pipeline.indexBuffer == Some(INDICES)
    && r.pipeline.numIndices == Some(6)
  }

  method NewRectangle(x: real, y: real, width: real, height: real, color: Rgba) returns (r: Rectangle)
    ensures fresh(r.pipeline)
    ensures Built(r, x, y, width, height, color)
  {
    var pipeline := new Triangle();
    pipeline.Prepare(Corners(x, y, width, height, color), INDICES);
    r := Rectangle(0.3, Point(x, y), pipeline);
  }
}
