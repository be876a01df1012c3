// The OpenGL ES back end of the swapchain providers
// (shell/openxr/mobile/opengl/XrSwapchainProviderImplGLES.cpp): it remembers
// the GL texture names of each swapchain's images and keeps, per image
// index, the external texture wrapping that image, re-creating it only when
// it is missing or its size no longer matches the view.

module XrSwapchainGles {
  import opened IglCore

  const GL_TEXTURE_2D: nat := 0x0DE1
  const GL_TEXTURE_2D_ARRAY: nat := 0x8C1A
  const GL_SRGB8_ALPHA8: int := 0x8C43
  const GL_DEPTH_COMPONENT16: int := 0x81A5

  /** An external texture over a swapchain image (createTextureBufferExternal with the Attachment usage). */
  datatype ExternalTexture = ExternalTexture(glImage: nat, target: nat, width: nat, height: nat, format: int, numLayers: nat)

  /** The texture-per-image cache; a missing entry is a null pointer. */
  type TextureCache = seq<Option<ExternalTexture>>

  /** The entry of `cache` at `index`, null beyond its end. */
  function Slot(cache: TextureCache, index: nat): Option<ExternalTexture> {
    if index < |cache| then cache[index] else None
  }

  /** The cached texture can be reused for a view of this size. */
  predicate Fits(t: Option<ExternalTexture>, width: nat, height: nat) {
    t.Some? && t.value.width == width && t.value.height == height
  }

  /** The cache grown to hold `index`, new entries null. */
  function Grow(cache: TextureCache, index: nat): (r: TextureCache)
    ensures |r| == if index < |cache| then |cache| else index + 1
    ensures forall k :: 0 <= k < |r| ==> r[k] == Slot(cache, k)
  {
    if index < |cache| then cache else cache + seq(index + 1 - |cache|, _ => None)
  }

  /** The external texture getSurfaceTexture creates for an image. */
  function NewTexture(glImage: nat, width: nat, height: nat, format: int, numViews: nat): ExternalTexture {
    ExternalTexture(glImage, if numViews > 1 then GL_TEXTURE_2D_ARRAY else GL_TEXTURE_2D, width, height, format, numViews)
  }

  /**
   * getSurfaceTexture after xrAcquireSwapchainImage returned `imageIndex`:
   * the texture handed back and the cache after the call. `created` is
   * whether createTextureBufferExternal returns a texture.
   */
  function SurfaceTexture(cache: TextureCache, images: seq<nat>, imageIndex: nat, width: nat, height: nat,
                          format: int, numViews: nat, created: bool): (r: (Option<ExternalTexture>, TextureCache))
    requires imageIndex < |images|
    ensures var (texture, after) := r;
      && |after| == (if imageIndex < |cache| then |cache| else imageIndex + 1)
      && (forall k :: 0 <= k < |after| && k != imageIndex ==> after[k] == Slot(cache, k))
      && (Fits(Slot(cache, imageIndex), width, height) ==> texture == Slot(cache, imageIndex) && after == Grow(cache, imageIndex))
      && (!Fits(Slot(cache, imageIndex), width, height) && created ==>
            texture == Some(NewTexture(images[imageIndex], width, height, format, numViews)) && after[imageIndex] == texture)
      && (!Fits(Slot(cache, imageIndex), width, height) && !created ==>
            texture.None? && after[imageIndex] == Slot(cache, imageIndex))
  {
    var grown := Grow(cache, imageIndex);
    var texture := grown[imageIndex];
    if Fits(texture, width, height) then (texture, grown)
    else if !created then (None, grown)
    else
      var t := Some(NewTexture(images[imageIndex], width, height, format, numViews));
      (t, grown[imageIndex := t])
  }

  /**
   * A texture getSurfaceTexture hands back has the view's size, and asking
   * again for the same image and size hands back the same texture without
   * creating one and leaves the cache as it was.
   */
  lemma SurfaceTextureReuse(cache: TextureCache, images: seq<nat>, imageIndex: nat, width: nat, height: nat,
                            format: int, numViews: nat, created: bool, createdAgain: bool)
    requires imageIndex < |images|
    ensures var (texture, after) := SurfaceTexture(cache, images, imageIndex, width, height, format, numViews, created);
      && (texture.Some? ==> Fits(texture, width, height) && after[imageIndex] == texture)
      && (texture.Some? ==> SurfaceTexture(after, images, imageIndex, width, height, format, numViews, createdAgain) == (texture, after))
  {
    var (texture, after) := SurfaceTexture(cache, images, imageIndex, width, height, format, numViews, created);
    if texture.Some? {
      assert Slot(after, imageIndex) == texture;
      assert Grow(after, imageIndex) == after;
    }
  }

  /** XrSwapchainProviderImplGLES with the texture caches of its base class. */
  class GlesSwapchainImpl {
    var colorImages: seq<nat>
    var depthImages: seq<nat>
    var colorTextures: TextureCache
    var depthTextures: TextureCache

    constructor()
      ensures colorImages == [] && depthImages == [] && colorTextures == [] && depthTextures == []
    {
      colorImages := [];
      depthImages := [];
      colorTextures := [];
      depthTextures := [];
    }

    /** preferredColorFormat */
    function PreferredColorFormat(): (r: int) {
      GL_SRGB8_ALPHA8
    }

    /** preferredDepthFormat */
    function PreferredDepthFormat(): (r: int) {
      GL_DEPTH_COMPONENT16
    }

    /**
     * enumerateImages: each list is replaced by the GL names of the images
     * xrEnumerateSwapchainImages reports for that swapchain, in its order.
     */
    method EnumerateImages(colorSwapchainImages: seq<nat>, depthSwapchainImages: seq<nat>)
      modifies this`colorImages, this`depthImages
      ensures colorImages == colorSwapchainImages && depthImages == depthSwapchainImages
    {
      colorImages := EnumerateSwapchainImages(colorSwapchainImages);
      depthImages := EnumerateSwapchainImages(depthSwapchainImages);
    }

    /**
     * getSurfaceTextures: the colour texture, then the depth texture, each
     * from its own cache; `colorIndex`/`depthIndex` are the acquired image
     * indices and `colorCreated`/`depthCreated` whether a new external
     * texture can be created.
     */
    method GetSurfaceTextures(colorIndex: nat, depthIndex: nat, width: nat, height: nat,
                              colorFormat: int, depthFormat: int, numViews: nat,
                              colorCreated: bool, depthCreated: bool)
        returns (color: Option<ExternalTexture>, depth: Option<ExternalTexture>)
      requires colorIndex < |colorImages| && depthIndex < |depthImages|
      modifies this`colorTextures, this`depthTextures
      ensures (color, colorTextures) == SurfaceTexture(old(colorTextures), colorImages, colorIndex, width, height, colorFormat, numViews, colorCreated)
      ensures (depth, depthTextures) == SurfaceTexture(old(depthTextures), depthImages, depthIndex, width, height, depthFormat, numViews, depthCreated)
    {
      var r := SurfaceTexture(colorTextures, colorImages, colorIndex, width, height, colorFormat, numViews, colorCreated);
      color, colorTextures := r.0, r.1;
      var s := SurfaceTexture(depthTextures, depthImages, depthIndex, width, height, depthFormat, numViews, depthCreated);
      depth, depthTextures := s.0, s.1;
    }
  }

  /**
   * enumerateSwapchainImages: the two-call idiom of xrEnumerateSwapchainImages
   * (count, then fill); the output list is cleared and receives each
   * reported image's GL name in order.
   */
  method EnumerateSwapchainImages(reported: seq<nat>) returns (outImages: seq<nat>)
    ensures outImages == reported
  {
    outImages := [];
    var i := 0;
    while i < |reported|
      invariant 0 <= i <= |reported| && outImages == reported[..i]
    {
      outImages := outImages + [reported[i]];
      i := i + 1;
    }
  }
}
