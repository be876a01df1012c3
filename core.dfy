// Types shared by the modelled components: igl::Result codes, the texture
// description enums of src/igl (Texture.h, TextureFormat.h, Common.h are not
// part of this model; only the enumerants the modelled code names appear),
// and an Option type for std::optional and nullable pointers.

module IglCore {

  datatype Option<T> = None | Some(value: T)

  /** igl::Result::Code */
  datatype ResultCode = Ok | ArgumentOutOfRange | InvalidOperation | Unimplemented | Unsupported | RuntimeError

  /** igl::ResourceStorage */
  datatype ResourceStorage = InvalidStorage | Private | Shared | Managed | Memoryless

  /** igl::TextureType */
  datatype TextureType = InvalidType | TwoD | TwoDArray | ThreeD | Cube | ExternalImage

  /** igl::TextureDesc::TextureTiling */
  datatype TextureTiling = Optimal | Linear

  /**
   * igl::TextureFormat: the enumerants the modelled code distinguishes by
   * name; every other enumerant is OtherFormat, told apart by its ordinal.
   */
  datatype TextureFormat =
    | InvalidFormat
    | RGBX_UNorm8 | RGBA_UNorm8 | B5G6R5_UNorm | RGBA_F16 | RGB10_A2_UNorm_Rev
    | Z_UNorm16 | Z_UNorm24 | Z_UNorm32 | S8_UInt_Z24_UNorm | S_UInt8
    | YUV_NV12
    | OtherFormat(ordinal: nat)

  /** igl::TextureDesc::TextureUsageBits */
  const TextureUsageSampled: bv32 := 1
  const TextureUsageStorage: bv32 := 2
  const TextureUsageAttachment: bv32 := 4

  /** The fields of igl::TextureDesc that the modelled code reads. */
  datatype TextureDesc = TextureDesc(
    width: nat, height: nat,
    numLayers: nat, numSamples: nat, numMipLevels: nat,
    usage: bv32, textureType: TextureType, tiling: TextureTiling,
    format: TextureFormat, storage: ResourceStorage)

  /** Wrap-around into an unsigned integer of the given width, as a C cast does. */
  function Wrap(x: int, modulus: nat): (r: nat)
    requires modulus > 0
    ensures r < modulus
    ensures 0 <= x < modulus ==> r == x
  {
    x % modulus
  }

  const UINT16_LIMIT: nat := 0x1_0000
  const UINT32_LIMIT: nat := 0x1_0000_0000
  const UINT64_LIMIT: nat := 0x1_0000_0000_0000_0000
}
