/**
 * An abstract render pass: the renderers are modelled by the sequence of calls they make on it,
 * in order. The GPU objects behind the calls (pipelines, buffers, textures) are represented by
 * the data they were created from.
 */
module RenderPass {
  import opened Common

  /** A vertex of the triangle pipeline (`Vertex2D { position: [f32; 2], color: [f32; 4] }`). */
  datatype Vertex2D = Vertex2D(position: Position, color: Rgba)

  /** A texture built from the encoded image bytes it was decoded from. */
  datatype Picture = Picture(image: seq<byte>)

  datatype Call =
    /** The pass starts by clearing the surface to this colour (`LoadOp::Clear`). */
    | ClearTo(color: Rgba)
    /** `set_pipeline` with the triangle-list pipeline every `Triangle` builds from the same shader. */
    | SetPipeline
    /** `set_vertex_buffer(slot, buffer)` with a buffer holding these vertices. */
    | SetVertexBuffer(slot: nat, vertices: seq<Vertex2D>)
    /** `set_index_buffer(buffer, Uint16)` with a buffer holding these indices. */
    | SetIndexBuffer(indices: seq<nat>)
    /** `draw_indexed(0..count, 0, 0..1)`: indices `0..count`, base vertex 0, one instance. */
    | DrawIndexed(count: nat)
    /** Everything a `Picture` asks of the pass to draw itself. */
    | DrawPicture(picture: Picture)
}
