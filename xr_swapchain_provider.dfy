// A swapchain provider of the OpenXR shell (shell/openxr/XrSwapchainProvider.cpp):
// it picks a colour and a depth format the runtime lists, creates one
// swapchain of each, lets the graphics back end enumerate their images,
// releases one image of each per frame and destroys the swapchains it
// created. The swapchain calls are those of section 10.1 (Swapchains) of the
// OpenXR 1.0 specification; their results and handles are parameters.

module XrSwapchain {

  // XrSwapchainUsageFlags
  const XR_SWAPCHAIN_USAGE_COLOR_ATTACHMENT_BIT: bv64 := 0x1
  const XR_SWAPCHAIN_USAGE_DEPTH_STENCIL_ATTACHMENT_BIT: bv64 := 0x2
  const XR_SWAPCHAIN_USAGE_SAMPLED_BIT: bv64 := 0x20

  /** XR_NULL_HANDLE */
  const NullHandle: nat := 0

  /**
   * impl::kSwapchainImageInvalidFormat, the "no format requested" marker. Its
   * definition is not part of this model; nothing proved depends on its value.
   */
  const InvalidFormat: int := 0

  /** impl::SwapchainImageInfo: the image size and the requested formats. */
  datatype SwapchainImageInfo = SwapchainImageInfo(imageWidth: nat, imageHeight: nat, colorFormat: int, depthFormat: int)

  /** XrSwapchainCreateInfo, without its type and next fields. */
  datatype SwapchainCreateInfo = SwapchainCreateInfo(
    usageFlags: bv64, format: int, sampleCount: nat, width: nat, height: nat,
    faceCount: nat, arraySize: nat, mipCount: nat)

  /** The format initialize asks for: the requested one, or the back end's preference when none was requested. */
  function ChosenFormat(requested: int, preferred: int): int {
    if requested != InvalidFormat then requested else preferred
  }

  /** The create-info createXrSwapchain passes to xrCreateSwapchain. */
  function CreateInfo(extraUsageFlags: bv64, format: int, info: SwapchainImageInfo, numViews: nat): SwapchainCreateInfo {
    SwapchainCreateInfo(XR_SWAPCHAIN_USAGE_SAMPLED_BIT | extraUsageFlags, format, 1,
      info.imageWidth, info.imageHeight, 1, numViews, 1)
  }

  /**
   * Every swapchain the provider creates can be sampled and has the extra
   * usage it was asked for, one sample, one face, one mip level, the image
   * size of the provider and one array layer per view.
   */
  lemma CreateInfoSpec(extraUsageFlags: bv64, format: int, info: SwapchainImageInfo, numViews: nat)
    ensures var c := CreateInfo(extraUsageFlags, format, info, numViews);
      && c.usageFlags & XR_SWAPCHAIN_USAGE_SAMPLED_BIT == XR_SWAPCHAIN_USAGE_SAMPLED_BIT
      && c.usageFlags & extraUsageFlags == extraUsageFlags
      && c.format == format && c.sampleCount == 1 && c.faceCount == 1 && c.mipCount == 1
      && c.width == info.imageWidth && c.height == info.imageHeight && c.arraySize == numViews
  {
    SampledUsage(extraUsageFlags);
  }

  lemma SampledUsage(extraUsageFlags: bv64)
    ensures (XR_SWAPCHAIN_USAGE_SAMPLED_BIT | extraUsageFlags) & XR_SWAPCHAIN_USAGE_SAMPLED_BIT == XR_SWAPCHAIN_USAGE_SAMPLED_BIT
    ensures (XR_SWAPCHAIN_USAGE_SAMPLED_BIT | extraUsageFlags) & extraUsageFlags == extraUsageFlags
  {
  }

  /** The swapchains the destructor destroys: the non-null ones, colour first. */
  function DestroyedSwapchains(colorSwapchain: nat, depthSwapchain: nat): (r: seq<nat>)
    ensures forall h :: h in r <==> h != NullHandle && (h == colorSwapchain || h == depthSwapchain)
    ensures |r| <= 2
    ensures colorSwapchain != NullHandle ==> |r| > 0 && r[0] == colorSwapchain
  {
    (if colorSwapchain != NullHandle then [colorSwapchain] else [])
      + (if depthSwapchain != NullHandle then [depthSwapchain] else [])
  }

  /** XrSwapchainProvider. */
  class SwapchainProvider {
    /** numViews_, a uint8_t: the array layers of each swapchain. */
    const numViews: nat
    var imageInfo: SwapchainImageInfo
    var colorSwapchain: nat
    var depthSwapchain: nat
    /** The create-infos passed to xrCreateSwapchain, in order. */
    var created: seq<SwapchainCreateInfo>
    /** Whether the back end was asked to enumerate the images of both swapchains. */
    var imagesEnumerated: bool
    /** The swapchains passed to xrReleaseSwapchainImage, in order. */
    var released: seq<nat>

    constructor(swapchainImageInfo: SwapchainImageInfo, numViews: nat)
      requires numViews < 0x100
      ensures this.numViews == numViews && imageInfo == swapchainImageInfo
      ensures colorSwapchain == NullHandle && depthSwapchain == NullHandle
      ensures created == [] && !imagesEnumerated && released == []
    {
      this.numViews := numViews;
      imageInfo := swapchainImageInfo;
      colorSwapchain := NullHandle;
      depthSwapchain := NullHandle;
      created := [];
      imagesEnumerated := false;
      released := [];
    }

    /**
     * initialize: `formats` is what xrEnumerateSwapchainFormats lists,
     * `preferredColor`/`preferredDepth` the back end's preferences, and
     * `newColor`/`newDepth` the handles xrCreateSwapchain returns. It
     * succeeds exactly when both chosen formats are listed. An unlisted
     * colour format stops it before anything is created; an unlisted depth
     * format stops it after the colour swapchain exists.
     */
    method Initialize(formats: seq<int>, preferredColor: int, preferredDepth: int, newColor: nat, newDepth: nat) returns (ok: bool)
      modifies this`imageInfo, this`colorSwapchain, this`depthSwapchain, this`created, this`imagesEnumerated
      ensures var c := ChosenFormat(old(imageInfo.colorFormat), preferredColor);
        var d := ChosenFormat(old(imageInfo.depthFormat), preferredDepth);
        && (ok <==> c in formats && d in formats)
        && (c !in formats ==> (imageInfo == old(imageInfo) && colorSwapchain == old(colorSwapchain)
              && depthSwapchain == old(depthSwapchain) && created == old(created) && imagesEnumerated == old(imagesEnumerated)))
        && (c in formats && d !in formats ==> (imageInfo == old(imageInfo).(colorFormat := c)
              && colorSwapchain == newColor && depthSwapchain == old(depthSwapchain)
              && created == old(created) + [CreateInfo(XR_SWAPCHAIN_USAGE_COLOR_ATTACHMENT_BIT, c, old(imageInfo), numViews)]
              && imagesEnumerated == old(imagesEnumerated)))
        && (ok ==> (imageInfo == old(imageInfo).(colorFormat := c, depthFormat := d)
              && colorSwapchain == newColor && depthSwapchain == newDepth
              && created == old(created) + [CreateInfo(XR_SWAPCHAIN_USAGE_COLOR_ATTACHMENT_BIT, c, old(imageInfo), numViews),
                                            CreateInfo(XR_SWAPCHAIN_USAGE_DEPTH_STENCIL_ATTACHMENT_BIT, d, old(imageInfo), numViews)]
              && imagesEnumerated))
    {
      var colorFormat := ChosenFormat(imageInfo.colorFormat, preferredColor);
      if colorFormat !in formats {
        return false;
      }
      imageInfo := imageInfo.(colorFormat := colorFormat);
      colorSwapchain := CreateXrSwapchain(XR_SWAPCHAIN_USAGE_COLOR_ATTACHMENT_BIT, colorFormat, newColor);

      var depthFormat := ChosenFormat(imageInfo.depthFormat, preferredDepth);
      if depthFormat !in formats {
        return false;
      }
      imageInfo := imageInfo.(depthFormat := depthFormat);
      depthSwapchain := CreateXrSwapchain(XR_SWAPCHAIN_USAGE_DEPTH_STENCIL_ATTACHMENT_BIT, depthFormat, newDepth);

      imagesEnumerated := true;
      return true;
    }

    /** createXrSwapchain: issues one xrCreateSwapchain call for the provider's image size and views and returns its handle. */
    method CreateXrSwapchain(extraUsageFlags: bv64, format: int, handle: nat) returns (swapchain: nat)
      modifies this`created
      ensures created == old(created) + [CreateInfo(extraUsageFlags, format, imageInfo, numViews)]
      ensures swapchain == handle
    {
      created := created + [CreateInfo(extraUsageFlags, format, imageInfo, numViews)];
      swapchain := handle;
    }

    /** releaseSwapchainImages: releases the colour image, then the depth image. */
    method ReleaseSwapchainImages()
      modifies this`released
      ensures released == old(released) + [colorSwapchain, depthSwapchain]
    {
      released := released + [colorSwapchain];
      released := released + [depthSwapchain];
    }

    /** The destructor: destroys each swapchain that was created. */
    method Destroy() returns (destroyed: seq<nat>)
      ensures destroyed == DestroyedSwapchains(colorSwapchain, depthSwapchain)
    {
      destroyed := [];
      if colorSwapchain != NullHandle {
        destroyed := destroyed + [colorSwapchain];
      }
      if depthSwapchain != NullHandle {
        destroyed := destroyed + [depthSwapchain];
      }
    }
  }
}
