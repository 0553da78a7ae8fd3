/** Values shared by every part of the model: optional values, bytes, points and colours. */
module Common {

  datatype Option<+T> = None | Some(value: T)

  /** Either a value or the reason there is none (the source's `Result` and panics). */
  datatype Result<+T, +E> = Ok(value: T) | Err(error: E)

  /** An unsigned 8-bit value, as read from and written to a socket. */
  type byte = b: int | 0 <= b < 0x100

  /** One more than the largest `u32`. */
  const U32_LIMIT: nat := 0x1_0000_0000

  /** A point in normalised device coordinates (the source's `Coordinates { x, y }`). */
  datatype Point = Point(x: real, y: real)

  /** Four colour channels in the order red, green, blue, alpha. */
  datatype Rgba = Rgba(r: real, g: real, b: real, a: real)

  /** Three colour channels in the order red, green, blue (the early prototype's vertex colour). */
  datatype Rgb = Rgb(r: real, g: real, b: real)

  /** Which constant a ring builder uses for a full turn: `TAU`, or the literal `6.28` of the prototype. */
  datatype Turn = Tau | Approx628

  /**
   * A vertex position. `At` is an exact point; `OnRing(c, r, i, n, t)` stands for the point
   * `(r * cos(t * i / n) + c.x, r * sin(t * i / n) + c.y)`, whose cosine and sine are left
   * uninterpreted.
   */
  datatype Position =
    | At(p: Point)
    | OnRing(center: Point, radius: real, step: nat, steps: nat, turn: Turn)

  /** Twice the signed area of the triangle `a, b, c`: positive exactly when it winds counter-clockwise. */
  function Winding(a: Point, b: Point, c: Point): real
  {
    (b.x - a.x) * (c.y - a.y) - (b.y - a.y) * (c.x - a.x)
  }

  /** A window's inner size in pixels (`PhysicalSize<u32>`). */
  datatype PhysicalSize = PhysicalSize(width: nat, height: nat)

  /** Why `get_current_texture` gave no frame to draw into. */
  datatype SurfaceError = Timeout | Outdated | Lost | OutOfMemory

  /** `f32::abs` without rounding. */
  function Abs(v: real): (r: real)
    ensures r >= 0.0
    ensures r == v || r == -v
  {
    if v < 0.0 then -v else v
  }

  /** The last element of a sequence, if there is one (`Vec::last`). */
  function Last<T>(s: seq<T>): (r: Option<T>)
    ensures r.None? <==> s == []
    ensures r.Some? ==> r.value == s[|s| - 1]
  {
    if s == [] then None else Some(s[|s| - 1])
  }

  /** Concatenation is associative; stated once for the proofs that regroup traces. */
  lemma AppendAssociative<T>(a: seq<T>, b: seq<T>, c: seq<T>)
    ensures (a + b) + c == a + (b + c)
  {
  }
}
