/**
 * The messages of vsg-core: the decoded Protocol Buffers `RootMessage` a client sends, and the
 * `Command`s the connection handler hands over to the render loop.
 */
module Messages {
  import opened Common

  /**
   * The `shape` oneof of the `Shape` message. Every variant's `ctr` is an optional sub-message,
   * so a well-formed message may lack it.
   */
  datatype WireShape =
    | Square(size: real, ctr: Option<Point>)
    | Circle(radius: real, ctr: Option<Point>)
    | Cross(size: real, lineWidth: real, ctr: Option<Point>)

  /** `Shape { shape: Option<shape::Shape> }`: the oneof may be unset. */
  datatype ShapeMsg = ShapeMsg(shape: Option<WireShape>)

  /** `BgColor { color: Vec<f32> }`: a repeated field of any length. */
  datatype BgColorMsg = BgColorMsg(color: seq<real>)

  /** `Texture { index: u32, data: Vec<u8> }`: encoded image bytes. */
  datatype TextureMsg = TextureMsg(index: nat, data: seq<byte>)

  /** The `command` oneof of `RootMessage`. */
  datatype WireCommand =
    | SetShape(shape: ShapeMsg)
    | SetBgColor(bgColor: BgColorMsg)
    | SetTexture(texture: TextureMsg)

  /** `RootMessage { command: Option<root_message::Command> }`: the oneof may be unset. */
  datatype RootMessage = RootMessage(command: Option<WireCommand>)

  /** What the connection handler pushes into the shared bucket for the render loop. */
  datatype Command =
    | Draw(shape: WireShape)
    | Clear(color: Rgba)
    | Texture(index: nat, data: seq<byte>)
}
