// Values shared by the render sessions and the OpenXR shell: the quad-layer
// parameters a session hands to the XR app (shell/shared/renderSession/
// QuadLayerParams.h) and the OpenXR enumerants and bit flags the composition
// code writes into its layer records, with the values of the OpenXR 1.0
// headers (openxr.h and the FB extension headers).

module XrTypes {
  /** glm::vec3 and glm::vec2; the model only copies them. */
  datatype Vec3 = Vec3(x: real, y: real, z: real)
  datatype Vec2 = Vec2(x: real, y: real)

  /** LayerBlendMode, a uint8_t enumeration: Opaque = 0, AlphaBlend = 1, AlphaAdditive = 2. */
  datatype LayerBlendMode = Opaque | AlphaBlend | AlphaAdditive

  /** QuadLayerParams; the image is 1024 x 1024 unless a session says otherwise. */
  datatype QuadLayerParams = QuadLayerParams(
    positions: seq<Vec3>,
    sizes: seq<Vec2>,
    blendModes: seq<LayerBlendMode>,
    imageWidth: nat,
    imageHeight: nat)
  {
    /** numQuads(): the number of positions. */
    function NumQuads(): nat {
      |positions|
    }
  }

  const DefaultImageSize: nat := 1024
  const DefaultQuadLayerParams := QuadLayerParams([], [], [], DefaultImageSize, DefaultImageSize)

  /** XrPosef with an identity orientation {0, 0, 0, 1}; the model keeps the position only. */
  datatype Pose = Pose(orientation: (real, real, real, real), position: Vec3)

  const IdentityOrientation: (real, real, real, real) := (0.0, 0.0, 0.0, 1.0)

  /** XrRect2Di with an offset and an extent. */
  datatype Rect = Rect(offsetX: int, offsetY: int, width: nat, height: nat)

  // XrCompositionLayerFlags
  const XR_COMPOSITION_LAYER_CORRECT_CHROMATIC_ABERRATION_BIT: bv64 := 0x1
  const XR_COMPOSITION_LAYER_BLEND_TEXTURE_SOURCE_ALPHA_BIT: bv64 := 0x2
  const XR_COMPOSITION_LAYER_UNPREMULTIPLIED_ALPHA_BIT: bv64 := 0x4

  /** XrEyeVisibility: XR_EYE_VISIBILITY_LEFT = 1, XR_EYE_VISIBILITY_RIGHT = 2. */
  datatype EyeVisibility = EyeBoth | EyeLeft | EyeRight

  /** XrEnvironmentBlendMode: OPAQUE = 1, ADDITIVE = 2, ALPHA_BLEND = 3. */
  datatype EnvironmentBlendMode = EnvOpaque | EnvAdditive | EnvAlphaBlend

  /** XR_COMPOSITION_LAYER_SETTINGS_QUALITY_SHARPENING_BIT_FB */
  const XR_COMPOSITION_LAYER_SETTINGS_QUALITY_SHARPENING_BIT_FB: bv64 := 0x8

  /** XrSessionState; the handlers only act on READY and STOPPING. */
  datatype SessionState =
    | StateUnknown | StateIdle | StateReady | StateSynchronized | StateVisible
    | StateFocused | StateStopping | StateLossPending | StateExiting

  /** The events xrPollEvent delivers, by XrStructureType. */
  datatype XrEvent =
    | EventsLost
    | InstanceLossPending
    | InteractionProfileChanged
    | PerfSettings
    | ReferenceSpaceChangePending
    | SessionStateChanged(state: SessionState)
    | OtherEvent(structureType: nat)

  /** The outcome of an OpenXR call: XR_SUCCESS, or another XrResult. */
  datatype XrResult = XrSuccess | XrFailure(code: int)
}
