/**
 * The stimulus renderers of the early prototype (`renderers/circle.rs` and
 * `renderers/rectangle.rs`): each records one render bundle when it is built and, when
 * rendered, executes that bundle on the pass.
 */
module ProtoRenderers {
  import opened Common
  import opened ProtoShapes
  import Fan

  /** The calls the prototype makes on its render pass, in order. */
  datatype PassCall =
    /** The pass starts by clearing the surface to this colour (`LoadOp::Clear`). */
    | ClearTo(color: Rgba)
    /** `execute_bundles(iter::once(&bundle))`. */
    | ExecuteBundle(bundle: Bundle)
    /** Whatever the prototype's cross renderer draws for a cross built at `(x, y)`. */
    | DrawCross(x: real, y: real)
    /** What the picture loaded at start-up draws. */
    | DrawStartupPicture

  /** `renderers::Circle`: a stored size and centre, and the bundle recorded by `new`. */
  datatype Circle = Circle(size: real, ctr: Point, bundle: Bundle)

  /** `renderers::Rectangle`: a stored size and centre, and the bundle recorded by `new`. */
  datatype Rectangle = Rectangle(size: real, ctr: Point, bundle: Bundle)

  /** What `Circle::new(x, y)` holds: size 0.3, centre `(x, y)`, and a bundle drawing the whole fan. */
  function CircleAt(x: real, y: real): Circle
  {
    Circle(0.3, Point(x, y), Bundle(CircleVertices(x, y), Fan.CircleIndices(Fan.RING), 3 * Fan.RING))
  }

  /**
   * A prototype circle stores size 0.3 and its centre unchanged; its bundle holds the 1025 fan
   * vertices with the centre first, 3072 indices that all lie below 1024 and start every
   * triangle at the centre, the last triangle being `(0, 1023, 1)`, and it draws every index.
   */
  lemma CircleAtShape(x: real, y: real)
    ensures var c := CircleAt(x, y);
            && c.size == 0.3 && c.ctr == Point(x, y)
            && |c.bundle.vertices| == 1025 && c.bundle.vertices[0].position == At(Point(x, y))
            && |c.bundle.indices| == 3072 && c.bundle.numIndices == |c.bundle.indices|
            && (forall j | 0 <= j < 3072 :: c.bundle.indices[j] <= 1023)
            && (forall t | 0 <= t < Fan.RING :: c.bundle.indices[3 * t] == 0)
            && c.bundle.indices[3069..] == [0, 1023, 1]
  {
    var c := CircleAt(x, y);
    CircleVerticesShape(x, y);
    Fan.CircleIndicesShape(Fan.RING);
    forall t | 0 <= t < Fan.RING
      ensures c.bundle.indices[3 * t] == 0
    {
      assert c.bundle.indices[3 * t] == Fan.Triangle(c.bundle.indices, t)[0];
    }
    assert c.bundle.indices[3069..] == Fan.Triangle(c.bundle.indices, Fan.RING - 1);
  }

  /** `Circle::new(x, y)`: the vertex loop and the index loop, recorded into a bundle. */
  method NewCircle(x: real, y: real) returns (c: Circle)
    ensures c == CircleAt(x, y)
  {
    var vertices := Fan.PushRing(Vertex(At(Point(x, y)), WHITE), Fan.RING, RingVertex(x, y));
    var indices := Fan.PushFanIndices(Fan.RING);
    Fan.CircleIndicesShape(Fan.RING);
    c := Circle(0.3, Point(x, y), Bundle(vertices, indices, |indices|));
  }

  /** `Rectangle::new(x, y)`: the inputs are replaced by their absolute values before anything is stored. */
  function NewRectangle(x: real, y: real): Rectangle
  {
    var x, y := Abs(x), Abs(y);
    Rectangle(0.3, Point(x, y), Bundle(Quad(x, y), QUAD_INDICES, |QUAD_INDICES|))
  }

  /**
   * A prototype rectangle stores size 0.3 and a centre in the first quadrant, equal to the
   * input exactly when neither input is negative; it records the same bundle as
   * `create_square_bundle`, a quad at `(±|x|, ±|y|)` around the origin drawing all 6 indices.
   */
  lemma RectangleShape(x: real, y: real)
    ensures var r := NewRectangle(x, y);
            && r.size == 0.3
            && r.ctr.x >= 0.0 && r.ctr.y >= 0.0
            && (r.ctr == Point(x, y) <==> x >= 0.0 && y >= 0.0)
            && r.bundle == SquareBundle(x, y)
            && r.bundle.numIndices == |r.bundle.indices| == 6
  {
  }

  /** What the prototype draws: a circle, a rectangle or a cross, each a bundle of its own. */
  datatype Stimulus =
    | CircleStimulus(circle: Circle)
    | RectangleStimulus(rectangle: Rectangle)
    | CrossStimulus(x: real, y: real)
  {
    /** The calls `render` makes: the stimulus's one bundle, executed once. */
    function Calls(): (calls: seq<PassCall>)
      ensures |calls| == 1
    {
      match this
      case CircleStimulus(c) => [ExecuteBundle(c.bundle)]
      case RectangleStimulus(r) => [ExecuteBundle(r.bundle)]
      case CrossStimulus(x, y) => [DrawCross(x, y)]
    }
  }
}
