// The colour-channel-order predicates over VkFormat. IGL declares the same
// pair twice: in igl::vulkan (src/igl/vulkan/TextureFormat.h) and in
// igl::vulkan::util (src/igl/vulkan/util/TextureFormat.h). Each header is a
// module here; the agreement of the two copies is proved below.

/** VkFormat enumerants used by the channel-order predicates (vulkan_core.h). */
module VkFormats {
  const VK_FORMAT_UNDEFINED: int := 0
  const VK_FORMAT_R8G8B8A8_UNORM: int := 37
  const VK_FORMAT_R8G8B8A8_SRGB: int := 43
  const VK_FORMAT_B8G8R8A8_UNORM: int := 44
  const VK_FORMAT_B8G8R8A8_SRGB: int := 50
  const VK_FORMAT_A2R10G10B10_UNORM_PACK32: int := 58
  const VK_FORMAT_A2B10G10R10_UNORM_PACK32: int := 64

  /** The formats whose first colour channel in memory order is red. */
  const RgbOrderFormats: set<int> :=
    {VK_FORMAT_R8G8B8A8_UNORM, VK_FORMAT_R8G8B8A8_SRGB, VK_FORMAT_A2R10G10B10_UNORM_PACK32}
  /** The formats whose first colour channel in memory order is blue. */
  const BgrOrderFormats: set<int> :=
    {VK_FORMAT_B8G8R8A8_UNORM, VK_FORMAT_B8G8R8A8_SRGB, VK_FORMAT_A2B10G10R10_UNORM_PACK32}
}

module VulkanTextureFormat {
  import opened VkFormats

  predicate IsTextureFormatRGB(format: int) {
    format == VK_FORMAT_R8G8B8A8_UNORM || format == VK_FORMAT_R8G8B8A8_SRGB ||
    format == VK_FORMAT_A2R10G10B10_UNORM_PACK32
  }

  predicate IsTextureFormatBGR(format: int) {
    format == VK_FORMAT_B8G8R8A8_UNORM || format == VK_FORMAT_B8G8R8A8_SRGB ||
    format == VK_FORMAT_A2B10G10R10_UNORM_PACK32
  }

  /** Exactly the three RGB-order formats and the three BGR-order formats are recognised. */
  lemma ChannelOrderSets(format: int)
    ensures IsTextureFormatRGB(format) <==> format in RgbOrderFormats
    ensures IsTextureFormatBGR(format) <==> format in BgrOrderFormats
  {
  }

  /** No format is both RGB and BGR ordered. */
  lemma ChannelOrdersDisjoint(format: int)
    ensures !(IsTextureFormatRGB(format) && IsTextureFormatBGR(format))
  {
  }

  /** Any other format, UNDEFINED among them, is neither. */
  lemma OtherFormatsHaveNoOrder(format: int)
    requires format !in RgbOrderFormats + BgrOrderFormats
    ensures !IsTextureFormatRGB(format) && !IsTextureFormatBGR(format)
  {
  }

  lemma UndefinedHasNoOrder()
    ensures !IsTextureFormatRGB(VK_FORMAT_UNDEFINED) && !IsTextureFormatBGR(VK_FORMAT_UNDEFINED)
  {
  }
}

module VulkanUtilTextureFormat {
  import opened VkFormats
  import VulkanTextureFormat

  predicate IsTextureFormatRGB(format: int) {
    format == VK_FORMAT_R8G8B8A8_UNORM || format == VK_FORMAT_R8G8B8A8_SRGB ||
    format == VK_FORMAT_A2R10G10B10_UNORM_PACK32
  }

  predicate IsTextureFormatBGR(format: int) {
    format == VK_FORMAT_B8G8R8A8_UNORM || format == VK_FORMAT_B8G8R8A8_SRGB ||
    format == VK_FORMAT_A2B10G10R10_UNORM_PACK32
  }

  lemma ChannelOrderSets(format: int)
    ensures IsTextureFormatRGB(format) <==> format in RgbOrderFormats
    ensures IsTextureFormatBGR(format) <==> format in BgrOrderFormats
  {
  }

  lemma ChannelOrdersDisjoint(format: int)
    ensures !(IsTextureFormatRGB(format) && IsTextureFormatBGR(format))
  {
  }

  /** The util copy answers exactly as the igl::vulkan copy does, for every format. */
  lemma AgreesWithVulkanNamespace(format: int)
    ensures IsTextureFormatRGB(format) == VulkanTextureFormat.IsTextureFormatRGB(format)
    ensures IsTextureFormatBGR(format) == VulkanTextureFormat.IsTextureFormatBGR(format)
  {
  }
}
