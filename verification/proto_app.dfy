/**
 * The window state of the early prototype (`State` in the prototype's `main.rs`): arrow keys
 * move a centre, any other key cycles the shape circle, square, cross, and the next frame
 * rebuilds the drawn bundle from the shape's kind at the current centre.
 */
module ProtoApp {
  import opened Common
  import opened ProtoShapes
  import opened ProtoRenderers

  /** The prototype's `Shape`; every variant carries its centre. */
  datatype Shape =
    | Square(size: real, ctr: Point)
    | Circle(radius: real, ctr: Point)
    | Cross(size: real, lineWidth: real, ctr: Point)

  /** The keys the prototype tells apart; every other key code is `OtherKey`. */
  datatype Key = Left | Right | Up | Down | Escape | OtherKey(code: nat)

  datatype ElementState = Pressed | Released

  /** The window events the prototype reacts to; the rest are `OtherEvent`. */
  datatype WindowEvent =
    | CloseRequested
    | Resized(size: PhysicalSize)
    | ScaleFactorChanged(newInnerSize: PhysicalSize)
    | KeyboardInput(state: ElementState, key: Option<Key>)
    | OtherEvent

  /** How far one arrow key press moves the centre. */
  const STEP: real := 0.05

  /** The colour every frame is cleared to. */
  const BACKGROUND: Rgba := Rgba(0.1, 0.2, 0.3, 1.0)

  /** Whether a key is one of the four arrows. */
  predicate IsArrow(key: Option<Key>)
  {
    key == Some(Left) || key == Some(Right) || key == Some(Up) || key == Some(Down)
  }

  /**
   * Where an arrow key moves the centre: Left and Up add a step to x and y, Right and Down
   * subtract one. The centre moves along exactly one axis, by exactly one step.
   */
  function Nudge(key: Key, ctr: Point): (moved: Point)
    requires IsArrow(Some(key))
    ensures (moved.x == ctr.x) != (moved.y == ctr.y)
    ensures Abs(moved.x - ctr.x) + Abs(moved.y - ctr.y) == STEP
    ensures moved.x > ctr.x <==> key == Left
    ensures moved.y > ctr.y <==> key == Up
    ensures moved.y == ctr.y <==> key == Left || key == Right
  {
    match key
    case Left => Point(ctr.x + STEP, ctr.y)
    case Right => Point(ctr.x - STEP, ctr.y)
    case Up => Point(ctr.x, ctr.y + STEP)
    case Down => Point(ctr.x, ctr.y - STEP)
  }

  /** The position of a shape's kind in the cycle circle, square, cross. */
  function Kind(shape: Shape): nat
  {
    match shape
    case Circle(_, _) => 0
    case Square(_, _) => 1
    case Cross(_, _, _) => 2
  }

  /**
   * The shape a non-arrow key press replaces `shape` with: the next kind in the cycle, at
   * `ctr`, with the fixed sizes of each kind (square 0.3, cross 0.3 with lines 0.132, circle
   * radius 0.2). Only the kind of `shape` matters, not its sizes or centre.
   */
  function Next(shape: Shape, ctr: Point): (next: Shape)
    ensures Kind(next) == (Kind(shape) + 1) % 3
    ensures next.ctr == ctr
    ensures next.Square? ==> next.size == 0.3
    ensures next.Cross? ==> next.size == 0.3 && next.lineWidth == 0.132
    ensures next.Circle? ==> next.radius == 0.2
  {
    match shape
    case Circle(_, _) => Square(0.3, ctr)
    case Square(_, _) => Cross(0.3, 0.132, ctr)
    case Cross(_, _, _) => Shape.Circle(0.2, ctr)
  }

  /**
   * Three presses bring the shape back to its kind, and from then on it repeats exactly: the
   * fourth press gives the same shape as the first.
   */
  lemma {:induction false} ThreePressesReturn(shape: Shape, ctr: Point)
    ensures Kind(Next(Next(Next(shape, ctr), ctr), ctr)) == Kind(shape)
    ensures Next(Next(Next(Next(shape, ctr), ctr), ctr), ctr) == Next(shape, ctr)
  {
    var one := Next(shape, ctr);
    var four := Next(Next(Next(one, ctr), ctr), ctr);
    assert Kind(four) == Kind(one);
    SameKindSameNext(Next(Next(one, ctr), ctr), shape, ctr);
  }

  /** `Next` looks only at the kind of the shape it replaces. */
  lemma SameKindSameNext(a: Shape, b: Shape, ctr: Point)
    requires Kind(a) == Kind(b)
    ensures Next(a, ctr) == Next(b, ctr)
  {
  }

  /**
   * The stimulus `render` rebuilds for a shape: a circle, a rectangle or a cross built from the
   * current centre. Only the shape's kind is used; its sizes and stored centre are ignored.
   */
  function Rebuilt(shape: Shape, x: real, y: real): (s: Stimulus)
    ensures s.CircleStimulus? <==> shape.Circle?
    ensures s.RectangleStimulus? <==> shape.Square?
    ensures s.CrossStimulus? <==> shape.Cross?
  {
    match shape
    case Circle(_, _) => CircleStimulus(CircleAt(x, y))
    case Square(_, _) => RectangleStimulus(NewRectangle(x, y))
    case Cross(_, _, _) => CrossStimulus(x, y)
  }

  class App {
    var xCtr: real
    var yCtr: real
    var shape: Shape
    /** Whether the next frame must rebuild `bundle` before drawing. */
    var rebuildBundle: bool
    /** The stimulus every frame draws. */
    var bundle: Stimulus
    /** Stored, never read or changed. */
    var i: nat
    var size: PhysicalSize
    /** The surface configuration's width and height. */
    var config: PhysicalSize

    /**
     * The surface is configured for the recorded size, and, unless a rebuild is pending, what
     * is drawn is the stimulus for the current shape's kind at the current centre.
     */
    ghost predicate Valid()
      reads this
    {
      && config == size
      && (!rebuildBundle ==> bundle == Rebuilt(shape, xCtr, yCtr))
    }

    /**
     * `State::new`: a circle of radius 0.2 at `(0.7, 0.7)`, drawn by a circle bundle built at
     * that centre, no rebuild pending, `i` zero.
     */
    constructor (size: PhysicalSize)
      ensures Valid()
      ensures xCtr == 0.7 && yCtr == 0.7 && shape == Shape.Circle(0.2, Point(0.7, 0.7))
      ensures !rebuildBundle && i == 0 && this.size == size
      ensures bundle == CircleStimulus(CircleAt(0.7, 0.7))
    {
      var circle := NewCircle(0.7, 0.7);
      xCtr, yCtr := 0.7, 0.7;
      bundle := CircleStimulus(circle);
      rebuildBundle := false;
      shape := Shape.Circle(0.2, Point(0.7, 0.7));
      this.size, config := size, size;
      i := 0;
    }

    /** `resize`: adopts a new size only when both sides are positive; a zero-sized window is ignored. */
    method Resize(newSize: PhysicalSize)
      requires Valid()
      modifies this
      ensures Valid()
      ensures size == if newSize.width > 0 && newSize.height > 0 then newSize else old(size)
      ensures xCtr == old(xCtr) && yCtr == old(yCtr) && shape == old(shape)
      ensures rebuildBundle == old(rebuildBundle) && bundle == old(bundle) && i == old(i)
    {
      if newSize.width > 0 && newSize.height > 0 {
        size := newSize;
        config := newSize;
      }
    }

    /**
     * What `update` does with `event`: a pressed arrow moves the centre and keeps the shape; any
     * other pressed key, or a press with no key code, replaces the shape with the next kind at
     * the current centre; both ask for a rebuild. Released keys and other events change nothing.
     */
    twostate predicate UpdatedBy(event: WindowEvent)
      reads this
    {
      && bundle == old(bundle) && i == old(i) && size == old(size) && config == old(config)
      && if event.KeyboardInput? && event.state == Pressed then
           && rebuildBundle
           && if IsArrow(event.key) then
                Point(xCtr, yCtr) == Nudge(event.key.value, Point(old(xCtr), old(yCtr))) && shape == old(shape)
              else
                xCtr == old(xCtr) && yCtr == old(yCtr) && shape == Next(old(shape), Point(xCtr, yCtr))
         else
           xCtr == old(xCtr) && yCtr == old(yCtr) && shape == old(shape) && rebuildBundle == old(rebuildBundle)
    }

    /** `update`. */
    method Update(event: WindowEvent)
      requires Valid()
      modifies this
      ensures Valid()
      ensures UpdatedBy(event)
    {
      match event {
      case KeyboardInput(state, key) =>
        if state == Pressed {
          match key {
          case Some(Left) =>
            xCtr := xCtr + STEP;
            rebuildBundle := true;
          case Some(Right) =>
            xCtr := xCtr - STEP;
            rebuildBundle := true;
          case Some(Up) =>
            yCtr := yCtr + STEP;
            rebuildBundle := true;
          case Some(Down) =>
            yCtr := yCtr - STEP;
            rebuildBundle := true;
          case _ =>
            match shape {
            case Circle(_, _) =>
              shape := Square(0.3, Point(xCtr, yCtr));
              rebuildBundle := true;
            case Square(_, _) =>
              shape := Cross(0.3, 0.132, Point(xCtr, yCtr));
              rebuildBundle := true;
            case Cross(_, _, _) =>
              shape := Shape.Circle(0.2, Point(xCtr, yCtr));
              rebuildBundle := true;
            }
          }
        }
      case _ =>
      }
    }

    /** The calls of one frame: clear to the background, the bundle, then the start-up picture on top. */
    function FrameCalls(): (calls: seq<PassCall>)
      reads this
      ensures |calls| == 3 && calls[0] == ClearTo(BACKGROUND) && calls[2] == DrawStartupPicture
    {
      [ClearTo(BACKGROUND)] + bundle.Calls() + [DrawStartupPicture]
    }

    /**
     * `render`: a pending rebuild replaces the bundle with the stimulus for the shape's kind at
     * the current centre and clears the flag, before the surface is asked for a texture, so it
     * happens even when the frame then fails. Without a pending rebuild the bundle is kept.
     */
    method Render(failure: Option<SurfaceError>) returns (error: Option<SurfaceError>, submitted: seq<PassCall>)
      requires Valid()
      modifies this
      ensures Valid() && !rebuildBundle
      ensures bundle == Rebuilt(shape, xCtr, yCtr)
      ensures !old(rebuildBundle) ==> bundle == old(bundle)
      ensures xCtr == old(xCtr) && yCtr == old(yCtr) && shape == old(shape)
      ensures i == old(i) && size == old(size) && config == old(config)
      ensures error == failure
      ensures submitted == if failure.None? then FrameCalls() else []
    {
      if rebuildBundle {
        match shape {
        case Circle(_, _) =>
          var circle := NewCircle(xCtr, yCtr);
          bundle := CircleStimulus(circle);
        case Square(_, _) =>
          bundle := RectangleStimulus(NewRectangle(xCtr, yCtr));
        case Cross(_, _, _) =>
          bundle := CrossStimulus(xCtr, yCtr);
        }
        rebuildBundle := false;
      }
      if failure.Some? {
        return failure, [];
      }
      submitted := [ClearTo(BACKGROUND)] + bundle.Calls() + [DrawStartupPicture];
      error := None;
    }
  }

  /** Whether the event loop exits on `event` without passing it on: a close request or a pressed Escape. */
  predicate ExitsOn(event: WindowEvent)
  {
    event.CloseRequested? || event == KeyboardInput(Pressed, Some(Escape))
  }

  /**
   * The `WindowEvent` arm of the event loop: a close request or a pressed Escape exits and is
   * never given to `update`, so Escape never cycles the shape; resizes and scale changes
   * resize; every other event goes to `update`.
   */
  method OnWindowEvent(app: App, event: WindowEvent) returns (exit: bool)
    requires app.Valid()
    modifies app
    ensures app.Valid()
    ensures exit <==> ExitsOn(event)
    ensures exit ==> unchanged(app)
    ensures event.Resized? ==>
      app.size == (if event.size.width > 0 && event.size.height > 0 then event.size else old(app.size))
    ensures event.ScaleFactorChanged? ==>
      app.size == (if event.newInnerSize.width > 0 && event.newInnerSize.height > 0 then event.newInnerSize else old(app.size))
    ensures event.Resized? || event.ScaleFactorChanged? ==>
      app.xCtr == old(app.xCtr) && app.yCtr == old(app.yCtr) && app.shape == old(app.shape) && app.bundle == old(app.bundle)
    ensures !exit && !event.Resized? && !event.ScaleFactorChanged? ==> app.UpdatedBy(event)
  {
    exit := false;
    match event {
    case CloseRequested =>
      exit := true;
    case KeyboardInput(Pressed, Some(Escape)) =>
      exit := true;
    case Resized(newSize) =>
      app.Resize(newSize);
    case ScaleFactorChanged(newInnerSize) =>
      app.Resize(newInnerSize);
    case _ =>
      app.Update(event);
    }
  }

  /**
   * The `RedrawRequested` arm: a frame is rendered; a lost surface is reconfigured at the
   * current size, running out of memory exits, and other surface errors are only logged.
   */
  method OnRedraw(app: App, failure: Option<SurfaceError>) returns (submitted: seq<PassCall>, exit: bool)
    requires app.Valid()
    modifies app
    ensures app.Valid() && !app.rebuildBundle
    ensures app.bundle == Rebuilt(app.shape, app.xCtr, app.yCtr)
    ensures app.shape == old(app.shape) && app.xCtr == old(app.xCtr) && app.yCtr == old(app.yCtr)
    ensures app.size == old(app.size)
    ensures exit <==> failure == Some(OutOfMemory)
    ensures submitted == if failure.None? then app.FrameCalls() else []
  {
    var error;
    error, submitted := app.Render(failure);
    if error == Some(Lost) {
      app.Resize(app.size);
    }
    exit := error == Some(OutOfMemory);
  }

  /** How many of `connections` the JSON parser accepts, each of them announced with one `"Start"` event. */
  function Started<M>(connections: seq<seq<byte>>, parse: seq<byte> -> Option<M>): (n: nat)
    ensures n <= |connections|
  {
    if connections == [] then 0
    else
      var last := connections[|connections| - 1];
      Started(connections[..|connections| - 1], parse) + if parse(last).Some? then 1 else 0
  }

  /**
   * The prototype's listener thread over the connections it accepts, in order: a message that
   * fails to parse is reported and skipped, and every one that parses sends one `"Start"` event.
   */
  method ListenJson<M>(connections: seq<seq<byte>>, parse: seq<byte> -> Option<M>) returns (started: nat)
    ensures started == Started(connections, parse)
  {
    started := 0;
    for k := 0 to |connections|
      invariant started == Started(connections[..k], parse)
    {
      assert connections[..k + 1][..k] == connections[..k];
      var msg := parse(connections[k]);
      if msg.None? {
        continue;
      }
      started := started + 1;
    }
    assert connections[..|connections|] == connections;
  }

  /**
   * Later connections are served whatever happened to earlier ones: the events of a list of
   * connections are those of its first part plus those of the rest, so a connection that fails
   * to parse adds nothing and stops nothing.
   */
  lemma {:induction false} StartedAppend<M>(a: seq<seq<byte>>, b: seq<seq<byte>>, parse: seq<byte> -> Option<M>)
    ensures Started(a + b, parse) == Started(a, parse) + Started(b, parse)
    decreases |b|
  {
    if b == [] {
      assert a + b == a;
    } else {
      var b' := b[..|b| - 1];
      assert (a + b)[..|a + b| - 1] == a + b';
      StartedAppend(a, b', parse);
    }
  }

  /** A connection whose message does not parse sends no event and does not stop the connections after it. */
  lemma ParseFailureSkipped<M>(a: seq<seq<byte>>, bad: seq<byte>, b: seq<seq<byte>>, parse: seq<byte> -> Option<M>)
    requires parse(bad).None?
    ensures Started(a + [bad] + b, parse) == Started(a, parse) + Started(b, parse)
  {
    StartedAppend(a + [bad], b, parse);
    StartedAppend(a, [bad], parse);
    assert [bad][..0] == [];
  }
}
