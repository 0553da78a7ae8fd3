/**
 * The cross renderer of vsg-core (`renderers/cross.rs`): a horizontal and a vertical rectangle
 * around the same centre, rendered in that order.
 */
module CrossRenderer {
  import opened Common
  import opened RenderPass
  import opened TriangleRenderer
  import RectangleRenderer

  /** `pipelines: [Rectangle; 2]`: the horizontal bar, then the vertical bar. */
  datatype Cross = Cross(ctr: Point, horizontal: RectangleRenderer.Rectangle,
                         vertical: RectangleRenderer.Rectangle) {

    /** The array `pipelines`, in order. */
    function Pipelines(): seq<RectangleRenderer.Rectangle>
    {
      [horizontal, vertical]
    }

    /** The objects whose state the drawing depends on. */
    function Frame(): set<Triangle>
    {
      {horizontal.pipeline, vertical.pipeline}
    }

    /** The calls of the bars, in array order. */
    function Calls(): seq<Call>
      reads Frame()
    {
      horizontal.Calls() + vertical.Calls()
    }

    /** `for p in &self.pipelines { p.render(render_pass) }`. */
    method Render(pass: seq<Call>) returns (after: seq<Call>)
      ensures after == pass + Calls()
    {
      var ps := Pipelines();
      ghost var drawn := [[], horizontal.Calls(), horizontal.Calls() + vertical.Calls()];
      after := pass;
      for i := 0 to |ps|
        invariant after == pass + drawn[i]
      {
        assert drawn[i + 1] == drawn[i] + ps[i].Calls();
        Common.AppendAssociative(pass, drawn[i], ps[i].Calls());
        after := ps[i].Render(after);
      }
    }
  }

  /**
   * What `Cross::new(ctr, size, line_width, color)` holds: the centre unchanged, and two
   * distinct rectangles centred on it, the first `size.x` wide and `line_width` high, the
   * second `line_width` wide and `size.y` high.
   */
  ghost predicate Built(c: Cross, ctr: Point, size: Point, lineWidth: real, color: Rgba)
    reads c.Frame()
  {
    && c.ctr == ctr
    && c.horizontal.pipeline != c.vertical.pipeline
    && RectangleRenderer.Built(c.horizontal, ctr.x, ctr.y, size.x, lineWidth, color)
    && RectangleRenderer.Built(c.vertical, ctr.x, ctr.y, lineWidth, size.y, color)
  }

  method NewCross(ctr: Point, size: Point, lineWidth: real, color: Rgba) returns (c: Cross)
    ensures Built(c, ctr, size, lineWidth, color)
    ensures fresh(c.horizontal.pipeline) && fresh(c.vertical.pipeline)
  {
    var p1 := RectangleRenderer.NewRectangle(ctr.x, ctr.y, size.x, lineWidth, color);
    var p2 := RectangleRenderer.NewRectangle(ctr.x, ctr.y, lineWidth, size.y, color);
    c := Cross(ctr, p1, p2);
  }
}
