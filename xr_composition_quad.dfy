// The quad composition of the OpenXR shell (shell/openxr/XrCompositionQuad.cpp):
// one XrCompositionLayerQuad record per eye, rewritten in place by every
// doComposition call and appended to the frame's layer list. The records
// follow section 10.5 (Composition layer types) of the OpenXR 1.0
// specification; the alpha-blend chain is XR_FB_composition_layer_alpha_blend.

module XrCompositionQuad {
  import opened XrTypes
  import opened XrShell

  /** A value-initialised XrCompositionLayerQuad (quadLayers_{}). */
  const BlankQuad := QuadLayer(false, 0, EyeBoth, Pose((0.0, 0.0, 0.0, 0.0), Origin), Vec2(0.0, 0.0), ProjectionView(0, Rect(0, 0, 0, 0), 0, 0))

  /** The layer flags doComposition writes: the caller's flags, plus SOURCE_ALPHA for an alpha-blended quad. */
  function QuadFlags(compositionFlags: bv64, blendMode: LayerBlendMode): bv64 {
    compositionFlags | (if blendMode == AlphaBlend then XR_COMPOSITION_LAYER_BLEND_TEXTURE_SOURCE_ALPHA_BIT else 0)
  }

  /** The record the quad writes for `view`. */
  function ViewQuad(sps: bool, alphaBlendSupported: bool, imageInfos: seq<Viewport>, position: Vec3, size: Vec2,
                    blendMode: LayerBlendMode, compositionFlags: bv64, view: nat): QuadLayer
    requires view < |imageInfos|
  {
    QuadLayer(
      alphaBlendSupported && blendMode == AlphaAdditive,
      QuadFlags(compositionFlags, blendMode),
      if view == 0 then EyeLeft else EyeRight,
      Pose(IdentityOrientation, position),
      size,
      ProjectionView(view, Rect(0, 0, imageInfos[view].width, imageInfos[view].height),
        if sps then 0 else view, if sps then view else 0))
  }

  /**
   * The two eye records of one composition: they share flags, blend chain,
   * pose and size; the left eye comes first; with single-pass stereo both
   * read provider 0 at sub-images 0 and 1, otherwise view v reads provider v
   * at sub-image 0; each covers its view's whole image; and the alpha-blend
   * record is chained exactly when the runtime supports it and the quad is
   * additive.
   */
  lemma QuadRecordsSpec(sps: bool, alphaBlendSupported: bool, imageInfos: seq<Viewport>, position: Vec3, size: Vec2,
                        blendMode: LayerBlendMode, compositionFlags: bv64)
    requires |imageInfos| == kNumViews
    ensures var l := ViewQuad(sps, alphaBlendSupported, imageInfos, position, size, blendMode, compositionFlags, 0);
      var r := ViewQuad(sps, alphaBlendSupported, imageInfos, position, size, blendMode, compositionFlags, 1);
      && l.layerFlags == r.layerFlags && l.alphaBlendNext == r.alphaBlendNext && l.pose == r.pose && l.size == r.size
      && l.eye == EyeLeft && r.eye == EyeRight
      && (sps ==> l.subImage.swapchainIndex == 0 && r.subImage.swapchainIndex == 0
                  && l.subImage.subImageIndex == 0 && r.subImage.subImageIndex == 1)
      && (!sps ==> l.subImage.swapchainIndex == 0 && r.subImage.swapchainIndex == 1
                   && l.subImage.subImageIndex == 0 && r.subImage.subImageIndex == 0)
      && l.subImage.imageRect == Rect(0, 0, imageInfos[0].width, imageInfos[0].height)
      && r.subImage.imageRect == Rect(0, 0, imageInfos[1].width, imageInfos[1].height)
      && l.pose.position == position && l.size == size
      && (l.alphaBlendNext <==> alphaBlendSupported && blendMode == AlphaAdditive)
  {
  }

  /** The flags doComposition writes keep every bit of the caller's flags other than SOURCE_ALPHA. */
  lemma QuadFlagsKeepOtherBits(compositionFlags: bv64, blendMode: LayerBlendMode)
    ensures QuadFlags(compositionFlags, blendMode) & !XR_COMPOSITION_LAYER_BLEND_TEXTURE_SOURCE_ALPHA_BIT
         == compositionFlags & !XR_COMPOSITION_LAYER_BLEND_TEXTURE_SOURCE_ALPHA_BIT
  {
    if blendMode == AlphaBlend {
      assert (compositionFlags | 2) & !2 == compositionFlags & !2;
    }
  }

  /** They carry SOURCE_ALPHA exactly when the caller's flags did or the quad is alpha-blended. */
  lemma QuadFlagsSourceAlpha(compositionFlags: bv64, blendMode: LayerBlendMode)
    ensures (QuadFlags(compositionFlags, blendMode) & XR_COMPOSITION_LAYER_BLEND_TEXTURE_SOURCE_ALPHA_BIT != 0)
        <==> (compositionFlags & XR_COMPOSITION_LAYER_BLEND_TEXTURE_SOURCE_ALPHA_BIT != 0 || blendMode == AlphaBlend)
  {
    if blendMode == AlphaBlend {
      assert (compositionFlags | 2) & 2 != 0;
    }
  }

  /** XrCompositionQuad, with the swapchain image sizes and the SPS flag its XrComposition base holds. */
  class CompositionQuad {
    const useSinglePassStereo: bool
    const alphaBlendSupported: bool
    /** swapchainImageInfo_: the image size of each view. */
    const imageInfos: seq<Viewport>
    var position: Vec3
    var size: Vec2
    var blendMode: LayerBlendMode
    /** quadLayers_: one record per view, which the pushed layers point to. */
    var quadLayers: seq<QuadLayer>

    predicate Valid()
      reads this
    {
      |imageInfos| == kNumViews && |quadLayers| == kNumViews
    }

    constructor(useSinglePassStereo: bool, isAlphaBlendCompositionSupported: bool, imageInfos: seq<Viewport>,
                position: Vec3, size: Vec2, blendMode: LayerBlendMode)
      requires |imageInfos| == kNumViews
      ensures Valid()
      ensures this.useSinglePassStereo == useSinglePassStereo && alphaBlendSupported == isAlphaBlendCompositionSupported
      ensures this.imageInfos == imageInfos
      ensures this.position == position && this.size == size && this.blendMode == blendMode
      ensures quadLayers == [BlankQuad, BlankQuad]
    {
      this.useSinglePassStereo := useSinglePassStereo;
      alphaBlendSupported := isAlphaBlendCompositionSupported;
      this.imageInfos := imageInfos;
      this.position := position;
      this.size := size;
      this.blendMode := blendMode;
      quadLayers := [BlankQuad, BlankQuad];
    }

    method UpdatePosition(position: Vec3)
      modifies this`position
      ensures this.position == position
    {
      this.position := position;
    }

    method UpdateSize(size: Vec2)
      modifies this`size
      ensures this.size == size
    {
      this.size := size;
    }

    method UpdateBlendMode(blendMode: LayerBlendMode)
      modifies this`blendMode
      ensures this.blendMode == blendMode
    {
      this.blendMode := blendMode;
    }

    /** The record for `view` from the current position, size and blend mode. */
    function CurrentQuad(compositionFlags: bv64, view: nat): QuadLayer
      reads this
      requires Valid() && view < kNumViews
    {
      ViewQuad(useSinglePassStereo, alphaBlendSupported, imageInfos, position, size, blendMode, compositionFlags, view)
    }

    /**
     * doComposition: rewrites both eye records and pushes them, left then
     * right, after the layers already in the list.
     */
    method DoComposition(compositionFlags: bv64, layers: seq<CompositionLayer>) returns (out: seq<CompositionLayer>)
      requires Valid()
      modifies this`quadLayers
      ensures Valid()
      ensures quadLayers == [CurrentQuad(compositionFlags, 0), CurrentQuad(compositionFlags, 1)]
      ensures out == layers + [QuadCompositionLayer(quadLayers[0]), QuadCompositionLayer(quadLayers[1])]
    {
      out := layers;
      var view := 0;
      while view < kNumViews
        invariant 0 <= view <= kNumViews && |quadLayers| == kNumViews
        invariant forall v :: 0 <= v < view ==> quadLayers[v] == CurrentQuad(compositionFlags, v)
        invariant |out| == |layers| + view && out[..|layers|] == layers
        invariant forall v :: 0 <= v < view ==> out[|layers| + v] == QuadCompositionLayer(quadLayers[v])
      {
        quadLayers := quadLayers[view := CurrentQuad(compositionFlags, view)];
        out := out + [QuadCompositionLayer(quadLayers[view])];
        view := view + 1;
      }
    }
  }
}
