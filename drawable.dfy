// iglu::drawable::Drawable::draw (IGLU/simple_renderer/Drawable.cpp): a
// render pipeline cached under the hash of its descriptor, and the fixed
// order of encoder calls per draw. Pipelines are ids produced by the
// device (an oracle); the hash function is taken as given.

module Drawable {
  import opened IglCore

  /** The calls draw makes on the render command encoder and the material, in order. */
  datatype EncoderCall =
    | BindRenderPipelineState(pipeline: nat)
    | MaterialBind(pipeline: nat)
    | BindPushConstants(size: nat)
    | VertexDraw

  /** The cache is stale iff there is no pipeline yet or it was made for another descriptor. */
  predicate NeedsPipeline(pipelineState: Option<nat>, lastHash: nat, hash: nat) {
    pipelineState.None? || hash != lastHash
  }

  /** The encoder calls of one draw with the given pipeline. */
  function DrawCalls(pipeline: nat, hasPushData: bool, pushSize: nat): (calls: seq<EncoderCall>)
    ensures |calls| == (if hasPushData && pushSize != 0 then 4 else 3)
    ensures calls[0] == BindRenderPipelineState(pipeline) && calls[1] == MaterialBind(pipeline)
    ensures calls[|calls| - 1] == VertexDraw
    ensures hasPushData && pushSize != 0 ==> calls[2] == BindPushConstants(pushSize)
  {
    [BindRenderPipelineState(pipeline), MaterialBind(pipeline)]
    + (if hasPushData && pushSize != 0 then [BindPushConstants(pushSize)] else [])
    + [VertexDraw]
  }

  /** Push constants are bound, and bound once, exactly when there is data of non-zero size. */
  lemma PushConstantsBoundIff(pipeline: nat, hasPushData: bool, pushSize: nat, size: nat)
    ensures BindPushConstants(size) in DrawCalls(pipeline, hasPushData, pushSize) <==>
      hasPushData && pushSize != 0 && size == pushSize
  {
    var calls := DrawCalls(pipeline, hasPushData, pushSize);
    if BindPushConstants(size) in calls {
      var i :| 0 <= i < |calls| && calls[i] == BindPushConstants(size);
      assert hasPushData && pushSize != 0 && i == 2;
    }
  }

  class Drawable {
    var pipelineState: Option<nat>
    var lastPipelineDescHash: nat
    /** Number of pipelines requested from the device so far. */
    var pipelinesCreated: nat

    constructor ()
      ensures pipelineState == None && lastPipelineDescHash == 0 && pipelinesCreated == 0
    {
      pipelineState := None;
      lastPipelineDescHash := 0;
      pipelinesCreated := 0;
    }

    /**
     * draw: recreates the pipeline (from the device's next pipeline) iff the
     * cache is stale, remembers the hash it was made for, then binds it,
     * binds the material, binds push constants when there are any, and
     * draws the vertices last.
     */
    method Draw(pipelineDescHash: nat, devicePipeline: nat, hasPushData: bool, pushSize: nat)
      returns (calls: seq<EncoderCall>)
      modifies this
      ensures NeedsPipeline(old(pipelineState), old(lastPipelineDescHash), pipelineDescHash) ==>
        pipelineState == Some(devicePipeline) && pipelinesCreated == old(pipelinesCreated) + 1
      ensures !NeedsPipeline(old(pipelineState), old(lastPipelineDescHash), pipelineDescHash) ==>
        pipelineState == old(pipelineState) && pipelinesCreated == old(pipelinesCreated)
      ensures lastPipelineDescHash == pipelineDescHash
      ensures pipelineState.Some? && !NeedsPipeline(pipelineState, lastPipelineDescHash, pipelineDescHash)
      ensures calls == DrawCalls(pipelineState.value, hasPushData, pushSize)
    {
      if pipelineState.None? || pipelineDescHash != lastPipelineDescHash {
        pipelineState := Some(devicePipeline);
        lastPipelineDescHash := pipelineDescHash;
        pipelinesCreated := pipelinesCreated + 1;
      }
      calls := [BindRenderPipelineState(pipelineState.value), MaterialBind(pipelineState.value)];
      if hasPushData && pushSize != 0 {
        calls := calls + [BindPushConstants(pushSize)];
      }
      calls := calls + [VertexDraw];
    }
  }
}
