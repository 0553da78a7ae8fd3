/**
 * The indexed-triangle renderer of vsg-core (`renderers/triangle.rs`): a pipeline plus three
 * optional fields that `prepare` fills, and a `render` that draws only what is present.
 */
module TriangleRenderer {
  import opened Common
  import opened RenderPass

  /**
   * The calls `render` makes for the given optional fields: the pipeline is always set first;
   * the vertex buffer is bound only when present; the index buffer is bound and the draw issued
   * only when both the index buffer and the count are present.
   */
  function RenderCalls(vertexBuffer: Option<seq<Vertex2D>>, indexBuffer: Option<seq<nat>>,
                       numIndices: Option<nat>): (calls: seq<Call>)
    ensures |calls| >= 1 && calls[0] == SetPipeline
    ensures vertexBuffer.Some? ==> |calls| >= 2 && calls[1] == SetVertexBuffer(0, vertexBuffer.value)
    ensures vertexBuffer.None? ==> forall c | c in calls :: !c.SetVertexBuffer?
    ensures (exists c :: c in calls && c.DrawIndexed?) <==> indexBuffer.Some? && numIndices.Some?
    ensures indexBuffer.Some? && numIndices.Some? ==>
              calls[|calls| - 2..] == [SetIndexBuffer(indexBuffer.value), DrawIndexed(numIndices.value)]
  {
    var bind := if vertexBuffer.Some? then [SetVertexBuffer(0, vertexBuffer.value)] else [];
    var draw := if indexBuffer.Some? && numIndices.Some?
                then [SetIndexBuffer(indexBuffer.value), DrawIndexed(numIndices.value)]
                else [];
    var calls := [SetPipeline] + bind + draw;
    assert draw != [] ==> calls[|calls| - 1] in calls;
    calls
  }

  class Triangle {
    var vertexBuffer: Option<seq<Vertex2D>>
    var indexBuffer: Option<seq<nat>>
    var numIndices: Option<nat>

    /** `Triangle::new`: the pipeline is built, nothing is uploaded yet. */
    constructor ()
      ensures vertexBuffer == None && indexBuffer == None && numIndices == None
    {
      vertexBuffer, indexBuffer, numIndices := None, None, None;
    }

    /**
     * `prepare`: uploads the vertices and indices, replacing whatever an earlier call uploaded,
     * and records the count as `indices.len() as u32`.
     */
    method Prepare(vertices: seq<Vertex2D>, indices: seq<nat>)
      modifies this
      ensures vertexBuffer == Some(vertices)
      ensures indexBuffer == Some(indices)
      ensures numIndices == Some(|indices| % U32_LIMIT)
    {
      vertexBuffer := Some(vertices);
      indexBuffer := Some(indices);
      numIndices := Some(|indices| % U32_LIMIT);
    }

    /** The calls `render` makes in the current state. */
    function Calls(): seq<Call>
      reads this
    {
      RenderCalls(vertexBuffer, indexBuffer, numIndices)
    }

    /** `render`: the pass gets `Calls()` appended after what it already holds. */
    method Render(pass: seq<Call>) returns (after: seq<Call>)
      ensures after == pass + Calls()
    {
      after := pass + [SetPipeline];
      if vertexBuffer.Some? {
        after := after + [SetVertexBuffer(0, vertexBuffer.value)];
      }
      if indexBuffer.Some? && numIndices.Some? {
        after := after + [SetIndexBuffer(indexBuffer.value)];
        after := after + [DrawIndexed(numIndices.value)];
      }
    }
  }

  /** Before `prepare` a triangle only sets its pipeline: nothing is bound and nothing is drawn. */
  lemma UnpreparedDrawsNothing()
    ensures RenderCalls(None, None, None) == [SetPipeline]
  {
  }

  /** After `prepare(vs, ix)` with fewer than 2^32 indices, `render` binds both buffers and draws all `|ix|` indices. */
  lemma PreparedDrawsAll(vs: seq<Vertex2D>, ix: seq<nat>)
    requires |ix| < U32_LIMIT
    ensures RenderCalls(Some(vs), Some(ix), Some(|ix| % U32_LIMIT))
            == [SetPipeline, SetVertexBuffer(0, vs), SetIndexBuffer(ix), DrawIndexed(|ix|)]
  {
  }
}
