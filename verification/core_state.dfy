/**
 * The render-thread state of vsg-core (`State` in `main.rs`): the scene, the background colour,
 * the optional picture and the surface size, together with the per-frame step that applies the
 * newest command from the bucket and renders.
 */
module CoreState {
  import opened Common
  import opened Messages
  import opened RenderPass
  import opened TriangleRenderer
  import CircleRenderer
  import RectangleRenderer
  import CrossRenderer
  import opened SceneRenderer
  import opened Mailbox
  import Fan

  /** `wgpu::Color::BLACK`, the background before any `Clear` command. */
  const BLACK: Rgba := Rgba(0.0, 0.0, 0.0, 1.0)
  /** The fixed colours `update_shape` gives each kind of stimulus. */
  const CIRCLE_COLOR: Rgba := Rgba(0.2, 0.0, 0.0, 1.0)
  const SQUARE_COLOR: Rgba := Rgba(0.0, 0.2, 0.0, 1.0)
  const CROSS_COLOR: Rgba := Rgba(0.0, 0.0, 0.2, 1.0)

  /**
   * The stimulus `update_shape` builds for a wire shape with a centre: a circle, a square with
   * `size` as both width and height, or a cross `size` by `size`, each in its kind's colour.
   */
  ghost predicate Shows(s: Stimulus, shape: WireShape)
    requires shape.ctr.Some?
    reads s.Frame()
  {
    var c := shape.ctr.value;
    match shape
    case Circle(radius, _) =>
      s.CircleStimulus? && CircleRenderer.Built(s.circle, c.x, c.y, radius, CIRCLE_COLOR)
    case Square(size, _) =>
      s.RectangleStimulus? && RectangleRenderer.Built(s.rectangle, c.x, c.y, size, size, SQUARE_COLOR)
    case Cross(size, lineWidth, _) =>
      s.CrossStimulus? && CrossRenderer.Built(s.cross, c, Point(size, size), lineWidth, CROSS_COLOR)
  }

  /** The counts of the `draw_indexed` calls in a trace, in order. */
  function DrawCounts(calls: seq<Call>): (counts: seq<nat>)
    ensures |counts| <= |calls|
    ensures (forall c | c in calls :: !c.DrawIndexed?) ==> counts == []
  {
    if calls == [] then []
    else
      var last := calls[|calls| - 1];
      DrawCounts(calls[..|calls| - 1]) + if last.DrawIndexed? then [last.count] else []
  }

  lemma {:induction false} DrawCountsAppend(a: seq<Call>, b: seq<Call>)
    ensures DrawCounts(a + b) == DrawCounts(a) + DrawCounts(b)
    decreases |b|
  {
    if b == [] {
      assert a + b == a;
    } else {
      var b' := b[..|b| - 1];
      assert (a + b)[..|a + b| - 1] == a + b';
      DrawCountsAppend(a, b');
    }
  }

  /** What a fully prepared triangle draws: all of its indices, once. */
  lemma PreparedDrawCounts(t: Triangle)
    requires t.vertexBuffer.Some? && t.indexBuffer.Some? && |t.indexBuffer.value| < U32_LIMIT
    requires t.numIndices == Some(|t.indexBuffer.value|)
    ensures DrawCounts(t.Calls()) == [|t.indexBuffer.value|]
  {
    var vs, ix := t.vertexBuffer.value, t.indexBuffer.value;
    PreparedDrawsAll(vs, ix);
    var calls := [SetPipeline, SetVertexBuffer(0, vs), SetIndexBuffer(ix), DrawIndexed(|ix|)];
    assert t.Calls() == calls;
    assert calls[..3][..2][..1][..0] == [];
  }

  /** The draws a shape's stimulus issues: the whole circle fan, the two triangles of a square, both bars of a cross. */
  function ExpectedDraws(shape: WireShape): seq<nat>
  {
    match shape
    case Circle(_, _) => [3 * Fan.RING]
    case Square(_, _) => [6]
    case Cross(_, _, _) => [6, 6]
  }

  /** Every stimulus `update_shape` builds draws all of its indices: nothing is left unprepared. */
  lemma ShownShapeDrawsFully(s: Stimulus, shape: WireShape)
    requires shape.ctr.Some?
    requires Shows(s, shape)
    ensures DrawCounts(s.Calls()) == ExpectedDraws(shape)
  {
    match shape
    case Circle(_, _) =>
      CircleDrawsFan(s.circle.triangles);
    case Square(_, _) =>
      PreparedDrawCounts(s.rectangle.pipeline);
    case Cross(_, _, _) =>
      CrossDrawsBothBars(s.cross);
  }

  /** A circle's triangle, prepared with the fan indices and their count, draws the whole fan. */
  lemma CircleDrawsFan(t: Triangle)
    requires t.vertexBuffer.Some? && t.indexBuffer == Some(Fan.CircleIndices(Fan.RING))
    requires t.numIndices == Some(3 * Fan.RING)
    ensures DrawCounts(t.Calls()) == [3 * Fan.RING]
  {
    Fan.CircleIndicesShape(Fan.RING);
    PreparedDrawCounts(t);
  }

  /** A cross whose bars hold six indices each draws six indices twice. */
  lemma CrossDrawsBothBars(x: CrossRenderer.Cross)
    requires x.horizontal.pipeline.vertexBuffer.Some? && x.horizontal.pipeline.indexBuffer == Some(RectangleRenderer.INDICES)
    requires x.horizontal.pipeline.numIndices == Some(6)
    requires x.vertical.pipeline.vertexBuffer.Some? && x.vertical.pipeline.indexBuffer == Some(RectangleRenderer.INDICES)
    requires x.vertical.pipeline.numIndices == Some(6)
    ensures DrawCounts(x.Calls()) == [6, 6]
  {
    PreparedDrawCounts(x.horizontal.pipeline);
    PreparedDrawCounts(x.vertical.pipeline);
    DrawCountsAppend(x.horizontal.Calls(), x.vertical.Calls());
  }

  class State {
    var scene: Scene
    var bgColor: Rgba
    var picture: Option<Picture>
    var size: PhysicalSize
    /** The surface configuration's width and height. */
    var config: PhysicalSize

    /** The surface is configured for the size the state records. */
    ghost predicate Valid()
      reads this
    {
      config == size
    }

    /** `State::new` for a window of inner size `size`: black background, no picture, empty scene. */
    constructor (size: PhysicalSize)
      ensures Valid() && this.size == size
      ensures bgColor == BLACK && picture == None
      ensures fresh(scene) && scene.stimuli == []
    {
      this.size, config := size, size;
      bgColor, picture := BLACK, None;
      scene := new Scene();
    }

    /** `resize`: adopts a new size only when both sides are positive; a zero-sized window is ignored. */
    method Resize(newSize: PhysicalSize)
      requires Valid()
      modifies this
      ensures Valid()
      ensures size == if newSize.width > 0 && newSize.height > 0 then newSize else old(size)
      ensures scene == old(scene) && bgColor == old(bgColor) && picture == old(picture)
    {
      if newSize.width > 0 && newSize.height > 0 {
        size := newSize;
        config := newSize;
      }
    }

    /**
     * `update_shape`: replaces the scene with a new one holding only the stimulus for `shape`.
     * A shape without a centre makes `unwrap` panic, and nothing is changed.
     */
    method UpdateShape(shape: WireShape) returns (panicked: bool)
      modifies this
      ensures panicked <==> shape.ctr.None?
      ensures panicked ==> unchanged(this)
      ensures !panicked ==> fresh(scene) && |scene.stimuli| == 1 && Shows(scene.stimuli[0], shape)
      ensures !panicked ==> forall t | t in scene.stimuli[0].Frame() :: fresh(t)
      ensures bgColor == old(bgColor) && picture == old(picture)
      ensures size == old(size) && config == old(config)
    {
      if shape.ctr.None? {
        return true;
      }
      var c := shape.ctr.value;
      var stimulus: Stimulus;
      match shape {
      case Circle(radius, _) =>
        var circle := CircleRenderer.NewCircle(c.x, c.y, radius, CIRCLE_COLOR);
        stimulus := CircleStimulus(circle);
      case Square(side, _) =>
        var rectangle := RectangleRenderer.NewRectangle(c.x, c.y, side, side, SQUARE_COLOR);
        stimulus := RectangleStimulus(rectangle);
      case Cross(side, lineWidth, _) =>
        var cross := CrossRenderer.NewCross(c, Point(side, side), lineWidth, CROSS_COLOR);
        stimulus := CrossStimulus(cross);
      }
      var next := new Scene();
      next.AddStimulus(stimulus);
      scene := next;
      panicked := false;
    }

    /** `update_bg_color`: the background becomes `color`, channels in order; nothing else changes. */
    method UpdateBgColor(color: Rgba)
      modifies this
      ensures bgColor == color
      ensures scene == old(scene) && picture == old(picture)
      ensures size == old(size) && config == old(config)
    {
      bgColor := color;
    }

    /** `update_texture`: the picture is replaced by one decoded from `data`; the index is ignored. */
    method UpdateTexture(index: nat, data: seq<byte>)
      modifies this
      ensures picture == Some(Picture(data))
      ensures scene == old(scene) && bgColor == old(bgColor)
      ensures size == old(size) && config == old(config)
    {
      picture := Some(Picture(data));
    }

    /** The calls of one frame: clear to the background, then the picture if any, then the scene. */
    function FrameCalls(): (calls: seq<Call>)
      reads this, scene, set i, t | 0 <= i < |scene.stimuli| && t in scene.stimuli[i].Frame() :: t
    {
      [ClearTo(bgColor)] + (if picture.Some? then [DrawPicture(picture.value)] else [])
      + SceneCalls(scene.stimuli)
    }

    /**
     * `render`: when the surface hands out a texture (`failure` is `None`), one pass is recorded
     * and submitted; otherwise the error is returned and nothing is drawn. The state is untouched.
     */
    method Render(failure: Option<SurfaceError>) returns (error: Option<SurfaceError>, submitted: seq<Call>)
      ensures error == failure
      ensures failure.Some? ==> submitted == []
      ensures failure.None? ==> submitted == FrameCalls()
    {
      if failure.Some? {
        return failure, [];
      }
      var pass := [ClearTo(bgColor)];
      if picture.Some? {
        pass := pass + [DrawPicture(picture.value)];
      }
      assert pass == [ClearTo(bgColor)] + (if picture.Some? then [DrawPicture(picture.value)] else []);
      submitted := scene.Render(pass);
      error := None;
    }
  }

  /** How one run of the `MainEventsCleared` block ends. */
  datatype Tick =
    /** The render thread panicked: the lock was poisoned, or a shape had no centre. */
    | Panicked
    /** The frame was handled; `submitted` is the pass submitted, if any, and `exit` the new control flow. */
    | Ticked(submitted: seq<Call>, exit: bool)

  /** Whether applying `newest` panics: only a shape without a centre does. */
  predicate PanicsOn(newest: Option<Command>)
  {
    newest.Some? && newest.value.Draw? && newest.value.shape.ctr.None?
  }

  /**
   * The locked block of `MainEventsCleared`: a poisoned lock panics; otherwise only the newest
   * command is applied (a shape replaces the scene with one showing it, a colour becomes the
   * background, a texture becomes the picture) and the bucket is emptied.
   */
  method Drain(state: State, bucket: Bucket) returns (panicked: bool)
    modifies state, bucket
    ensures panicked <==> old(bucket.poisoned) || PanicsOn(Last(old(bucket.commands)))
    ensures !panicked ==> bucket.commands == [] && !bucket.poisoned
    ensures state.size == old(state.size) && state.config == old(state.config)
    ensures !panicked ==> var newest: Option<Command> := Last(old(bucket.commands));
      match newest
      case None =>
        state.scene == old(state.scene) && state.bgColor == old(state.bgColor) && state.picture == old(state.picture)
      case Some(Draw(shape)) =>
        && fresh(state.scene) && |state.scene.stimuli| == 1 && Shows(state.scene.stimuli[0], shape)
        && state.bgColor == old(state.bgColor) && state.picture == old(state.picture)
      case Some(Clear(color)) =>
        state.bgColor == color && state.scene == old(state.scene) && state.picture == old(state.picture)
      case Some(Texture(_, data)) =>
        state.picture == Some(Picture(data)) && state.scene == old(state.scene) && state.bgColor == old(state.bgColor)
  {
    if bucket.poisoned {
      return true;
    }
    var newest := bucket.Newest();
    match newest {
    case Some(Draw(shape)) =>
      panicked := state.UpdateShape(shape);
      if panicked {
        return;
      }
    case Some(Clear(color)) =>
      state.UpdateBgColor(color);
    case Some(Texture(index, data)) =>
      state.UpdateTexture(index, data);
    case None =>
    }
    bucket.Clear();
    panicked := false;
  }

  /**
   * The `match state.render()` of `MainEventsCleared`: a lost surface is reconfigured at the
   * current size, running out of memory asks the event loop to exit, and other surface errors
   * are only logged. What the frame shows is left as it was.
   */
  method Present(state: State, failure: Option<SurfaceError>) returns (submitted: seq<Call>, exit: bool)
    requires state.Valid()
    modifies state
    ensures state.Valid() && state.size == old(state.size)
    ensures state.scene == old(state.scene) && state.bgColor == old(state.bgColor) && state.picture == old(state.picture)
    ensures exit <==> failure == Some(OutOfMemory)
    ensures submitted == if failure.None? then state.FrameCalls() else []
  {
    var error;
    error, submitted := state.Render(failure);
    if error == Some(Lost) {
      state.Resize(state.size);
    }
    exit := error == Some(OutOfMemory);
  }

  /**
   * One `MainEventsCleared`: under the lock, only the newest command is applied and the bucket
   * is emptied; then a frame is rendered. A lost surface is reconfigured at the current size,
   * running out of memory ends the event loop, and other surface errors are only logged.
   */
  method MainEventsCleared(state: State, bucket: Bucket, failure: Option<SurfaceError>) returns (tick: Tick)
    requires state.Valid()
    modifies state, bucket
    ensures tick.Panicked? <==> old(bucket.poisoned) || PanicsOn(Last(old(bucket.commands)))
    ensures tick.Ticked? ==> state.Valid() && bucket.commands == [] && !bucket.poisoned
    ensures tick.Ticked? ==> state.size == old(state.size)
    ensures tick.Ticked? ==> (tick.exit <==> failure == Some(OutOfMemory))
    ensures tick.Ticked? ==> tick.submitted == if failure.None? then state.FrameCalls() else []
    ensures tick.Ticked? ==> var newest: Option<Command> := Last(old(bucket.commands));
      match newest
      case None =>
        state.scene == old(state.scene) && state.bgColor == old(state.bgColor) && state.picture == old(state.picture)
      case Some(Draw(shape)) =>
        && fresh(state.scene) && |state.scene.stimuli| == 1 && Shows(state.scene.stimuli[0], shape)
        && state.bgColor == old(state.bgColor) && state.picture == old(state.picture)
      case Some(Clear(color)) =>
        state.bgColor == color && state.scene == old(state.scene) && state.picture == old(state.picture)
      case Some(Texture(_, data)) =>
        state.picture == Some(Picture(data)) && state.scene == old(state.scene) && state.bgColor == old(state.bgColor)
  {
    var panicked := Drain(state, bucket);
    if panicked {
      return Panicked;
    }
    var submitted, exit := Present(state, failure);
    tick := Ticked(submitted, exit);
  }
}
