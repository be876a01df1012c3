// The mobile OpenXR host (shell/openxr/mobile/XrApp.cpp, with its state
// declared in shell/openxr/XrApp.h): the fail-fast bootstrap, extension
// negotiation, the session lifecycle driven by READY/STOPPING events, the
// swapchain-provider layout, the per-frame render and composition-layer
// lists, the refresh-rate cache and the sharpening flag.
//
// Every xr* call and every call into the platform implementation is an
// oracle: its outcome is a field of the Runtime value handed to the method
// that makes the call. Handles are modelled by whether they are null. Poses,
// fields of view and matrices are not modelled.

module XrAppMobile {
  import opened IglCore
  import opened XrTypes
  import opened XrExtensions
  import opened XrShell

  const XR_FB_PASSTHROUGH: string := "XR_FB_passthrough"
  const XR_EXT_HAND_TRACKING: string := "XR_EXT_hand_tracking"
  const XR_FB_HAND_TRACKING_MESH: string := "XR_FB_hand_tracking_mesh"
  const XR_FB_DISPLAY_REFRESH_RATE: string := "XR_FB_display_refresh_rate"
  const XR_KHR_ANDROID_CREATE_INSTANCE: string := "XR_KHR_android_create_instance"
  const XR_FB_COMPOSITION_LAYER_ALPHA_BLEND: string := "XR_FB_composition_layer_alpha_blend"

  /** The optional extensions checkExtensions adds itself (an Android build with the alpha-blend extension known). */
  const AdditionalOptionalExtensions: seq<string> :=
    [XR_KHR_ANDROID_CREATE_INSTANCE, XR_FB_COMPOSITION_LAYER_ALPHA_BLEND, XR_FB_DISPLAY_REFRESH_RATE]

  /** InitParams::RefreshRateMode */
  datatype RefreshRateMode = UseDefault | UseMaxRefreshRate | UseSpecificRefreshRate

  /** InitParams */
  datatype InitParams = InitParams(refreshRateMode: RefreshRateMode, desiredSpecificRefreshRate: real)

  const DefaultInitParams := InitParams(UseDefault, 90.0)

  /**
   * The display-refresh-rate runtime: what xrGetDisplayRefreshRateFB reports
   * (None: failure), the two calls of xrEnumerateDisplayRefreshRatesFB, and
   * the rates xrRequestDisplayRefreshRateFB accepts.
   */
  datatype RefreshRateRuntime = RefreshRateRuntime(
    current: Option<real>,
    countResult: XrResult,
    rates: seq<real>,
    listResult: XrResult,
    accepted: set<real>)

  /** The outcomes of the calls initialize makes, in the order it makes them. */
  datatype Runtime = Runtime(
    extensionProcResult: XrResult,
    runtimeExtensions: seq<string>,
    requiredExtensions: seq<string>,
    optionalExtensions: seq<string>,
    passthroughExtensions: seq<string>,
    handsExtensions: seq<string>,
    createInstanceResult: XrResult,
    getSystemResult: XrResult,
    viewConfigurations: seq<ViewConfiguration>,
    deviceCreated: bool,
    multiviewSupported: bool,
    sessionCreated: bool,
    referenceSpaces: seq<nat>,
    environmentBlendModes: seq<EnvironmentBlendMode>,
    passthroughInitOk: bool,
    handsInitOk: bool,
    refresh: RefreshRateRuntime)

  /** The optional list checkExtensions walks: the implementation's, then passthrough's, hands', and its own. */
  function OptionalExtensionList(rt: Runtime): (r: seq<string>)
    ensures forall x :: x in r <==>
      x in rt.optionalExtensions || x in rt.passthroughExtensions || x in rt.handsExtensions || x in AdditionalOptionalExtensions
  {
    rt.optionalExtensions + rt.passthroughExtensions + rt.handsExtensions + AdditionalOptionalExtensions
  }

  /** The steps of initialize up to and including the creation of the session succeed. */
  predicate PreSessionOk(rt: Runtime) {
    && rt.extensionProcResult == XrSuccess
    && AllSupported(rt.requiredExtensions, rt.runtimeExtensions)
    && rt.createInstanceResult == XrSuccess
    && rt.getSystemResult == XrSuccess
    && ViewConfigurationOk(rt.viewConfigurations)
    && rt.deviceCreated
    && rt.sessionCreated
  }

  /** Passthrough and hand tracking initialise wherever their extensions are supported. */
  predicate FeaturesOk(rt: Runtime, supported: set<string>) {
    (XR_FB_PASSTHROUGH in supported ==> rt.passthroughInitOk) && (XR_EXT_HAND_TRACKING in supported ==> rt.handsInitOk)
  }

  /** Every step of initialize succeeds, given the optional extensions recorded before it. */
  predicate BootstrapOk(rt: Runtime, supportedBefore: set<string>) {
    PreSessionOk(rt)
    && FeaturesOk(rt, supportedBefore + Names(Supported(OptionalExtensionList(rt), rt.runtimeExtensions)))
  }

  // ---------------------------------------------------------------------
  // Session lifecycle
  // ---------------------------------------------------------------------

  /** The state handler's assertions: READY only while inactive, STOPPING only while active. */
  predicate CanHandle(active: bool, state: SessionState) {
    (state == StateReady ==> !active) && (state == StateStopping ==> active)
  }

  /** Every lifecycle event arrives in a state its handler asserts. */
  predicate EventsRespectAsserts(active: bool, events: seq<XrEvent>, begins: seq<XrResult>)
    requires |begins| == |events|
    decreases |events|
  {
    events == [] ||
    ((IsLifecycleEvent(events[0]) ==> CanHandle(active, events[0].state))
     && EventsRespectAsserts(EventEffect(active, events[0], begins[0]), events[1..], begins[1..]))
  }

  // ---------------------------------------------------------------------
  // Swapchain providers, render passes and composition layers
  // ---------------------------------------------------------------------

  /** Views a provider serves in the loop of updateSwapchainProviders. */
  function ViewsPerProvider(sps: bool): nat {
    if sps then 1 else kNumViews
  }

  function ProviderCount(sps: bool, quadLayers: nat): nat {
    if sps then quadLayers else kNumViews * quadLayers
  }

  /** Provider k serves view k mod viewCnt; with single-pass stereo each provider holds both views. */
  function ProviderAt(sps: bool, viewports: seq<Viewport>, k: nat): ProviderConfig
    requires |viewports| == kNumViews
  {
    var view := k % ViewsPerProvider(sps);
    ProviderConfig(viewports[view].width, viewports[view].height, if sps then kNumViews else 1)
  }

  /** Projection view `layer` of setupProjectionAndDepth. */
  function ProjectionViewAt(sps: bool, viewports: seq<Viewport>, layer: nat): ProjectionView
    requires |viewports| == kNumViews
  {
    var view := layer % kNumViews;
    ProjectionView(view, Rect(0, 0, viewports[view].width, viewports[view].height),
      if sps then layer / kNumViews else layer, if sps then view else 0)
  }

  /** The quad parameters endFrameQuadLayerComposition reads for quad i exist. */
  predicate QuadParamsCover(params: QuadLayerParams, quadLayers: nat) {
    params.NumQuads() > 0 ==> quadLayers <= |params.sizes| && quadLayers <= |params.blendModes| && quadLayers <= params.NumQuads()
  }

  /** Quad `i` gets the additive blend record when the runtime supports it and its mode is AlphaAdditive. */
  function QuadAlphaBlendNext(params: QuadLayerParams, alphaBlendSupported: bool, i: nat): bool
    requires params.NumQuads() > 0 ==> i < |params.blendModes|
  {
    alphaBlendSupported && params.NumQuads() > 0 && params.blendModes[i] == AlphaAdditive
  }

  /** As written, the blend record is chosen by the layer index 2i+view rather than the quad index. */
  function QuadAlphaBlendNextAsWritten(params: QuadLayerParams, alphaBlendSupported: bool, layer: nat): bool
    requires params.NumQuads() > 0 ==> layer < |params.blendModes|
  {
    alphaBlendSupported && params.NumQuads() > 0 && params.blendModes[layer] == AlphaAdditive
  }

  /**
   * With two quads whose blend modes are AlphaAdditive and Opaque, the
   * layers as written give quad 0's left eye the additive record and its
   * right eye (layer 1, which reads quad 1's mode) none; and with one quad,
   * its right-eye layer would read blendModes[1] of a one-entry list.
   */
  lemma QuadEyesDisagreeAsWritten()
    ensures var params := QuadLayerParams([Origin, Origin], [Vec2(1.0, 1.0), Vec2(1.0, 1.0)], [AlphaAdditive, Opaque], 1024, 1024);
      QuadAlphaBlendNextAsWritten(params, true, 0) && !QuadAlphaBlendNextAsWritten(params, true, 1)
      && QuadAlphaBlendNext(params, true, 0)
    ensures var single := QuadLayerParams([Origin], [Vec2(1.0, 1.0)], [AlphaAdditive], 1024, 1024);
      single.NumQuads() * kNumViews - 1 >= |single.blendModes|
  {
  }

  /** Quad layer `layer` of endFrameQuadLayerComposition: quad layer/2, view layer mod 2. */
  function QuadLayerAt(params: QuadLayerParams, alphaBlendSupported: bool, appSize: Vec2, subImage: ProjectionView, layer: nat): QuadLayer
    requires params.NumQuads() > 0 ==> layer / kNumViews < |params.blendModes| && layer / kNumViews < |params.sizes| && layer / kNumViews < params.NumQuads()
  {
    var i := layer / kNumViews;
    var hasQuads := params.NumQuads() > 0;
    QuadLayer(
      QuadAlphaBlendNext(params, alphaBlendSupported, i),
      if hasQuads && params.blendModes[i] == AlphaBlend then XR_COMPOSITION_LAYER_BLEND_TEXTURE_SOURCE_ALPHA_BIT else 0,
      if layer % kNumViews == 0 then EyeLeft else EyeRight,
      Pose(IdentityOrientation, if hasQuads then params.positions[i] else Origin),
      if hasQuads then params.sizes[i] else appSize,
      subImage)
  }

  /**
   * In the projection views, a layer's swapchain index names an existing
   * provider; with single-pass stereo both views of a quad layer share
   * provider i with sub-images 0 and 1, otherwise every layer has its own
   * provider and sub-image 0.
   */
  lemma ProjectionViewsUseTheirProviders(sps: bool, viewports: seq<Viewport>, quadLayers: nat, layer: nat)
    requires |viewports| == kNumViews && layer < kNumViews * quadLayers
    ensures ProjectionViewAt(sps, viewports, layer).swapchainIndex < ProviderCount(sps, quadLayers)
    ensures ProjectionViewAt(sps, viewports, layer).view == layer % kNumViews
    ensures sps ==> (ProjectionViewAt(sps, viewports, layer).swapchainIndex == layer / kNumViews
      && ProjectionViewAt(sps, viewports, layer).subImageIndex == layer % kNumViews)
    ensures !sps ==> (ProjectionViewAt(sps, viewports, layer).swapchainIndex == layer
      && ProjectionViewAt(sps, viewports, layer).subImageIndex == 0)
  {
  }

  /** Both eyes of a quad get the same blend record, flags, pose and size, and opposite eyes. */
  lemma QuadEyesAgree(params: QuadLayerParams, alphaBlendSupported: bool, appSize: Vec2, left: ProjectionView, right: ProjectionView, i: nat)
    requires params.NumQuads() > 0 ==> i < |params.blendModes| && i < |params.sizes| && i < params.NumQuads()
    ensures var l := QuadLayerAt(params, alphaBlendSupported, appSize, left, kNumViews * i);
      var r := QuadLayerAt(params, alphaBlendSupported, appSize, right, kNumViews * i + 1);
      && l.alphaBlendNext == r.alphaBlendNext && l.layerFlags == r.layerFlags
      && l.pose == r.pose && l.size == r.size
      && l.eye == EyeLeft && r.eye == EyeRight
  {
  }

  // ---------------------------------------------------------------------
  // Refresh rates, compared and ordered only
  // ---------------------------------------------------------------------

  predicate SortedRates(s: seq<real>) {
    forall i, j :: 0 <= i < j < |s| ==> s[i] <= s[j]
  }

  function InsertRate(x: real, s: seq<real>): seq<real>
    decreases |s|
  {
    if s == [] || x <= s[0] then [x] + s else [s[0]] + InsertRate(x, s[1..])
  }

  /** std::sort on the enumerated rates. */
  function SortRates(s: seq<real>): seq<real>
    decreases |s|
  {
    if s == [] then [] else InsertRate(s[0], SortRates(s[1..]))
  }

  /** Inserting adds exactly one occurrence of x. */
  lemma {:induction false} InsertRateElements(x: real, s: seq<real>)
    ensures multiset(InsertRate(x, s)) == multiset(s) + multiset{x}
    ensures |InsertRate(x, s)| == |s| + 1
    decreases |s|
  {
    if s != [] && !(x <= s[0]) {
      InsertRateElements(x, s[1..]);
      assert s == [s[0]] + s[1..];
    }
  }

  /** Inserting a rate no smaller than `lo` into rates no smaller than `lo` keeps every rate at least `lo`. */
  lemma {:induction false} InsertRateLowerBound(x: real, s: seq<real>, lo: real)
    requires lo <= x && forall k :: 0 <= k < |s| ==> lo <= s[k]
    ensures forall k :: 0 <= k < |InsertRate(x, s)| ==> lo <= InsertRate(x, s)[k]
    decreases |s|
  {
    if s != [] && !(x <= s[0]) {
      InsertRateLowerBound(x, s[1..], lo);
    }
  }

  /** Inserting into a sorted list keeps it sorted. */
  lemma {:induction false} InsertRateSorted(x: real, s: seq<real>)
    requires SortedRates(s)
    ensures SortedRates(InsertRate(x, s))
    decreases |s|
  {
    if s != [] && !(x <= s[0]) {
      var t := InsertRate(x, s[1..]);
      InsertRateSorted(x, s[1..]);
      InsertRateLowerBound(x, s[1..], s[0]);
      var r := [s[0]] + t;
      assert InsertRate(x, s) == r;
      forall i, j | 0 <= i < j < |r| ensures r[i] <= r[j] {
        assert r[j] == t[j - 1];
        if i > 0 {
          assert r[i] == t[i - 1];
        }
      }
    }
  }

  /** The sorted list is ordered and holds the same rates, each as often. */
  lemma {:induction false} SortRatesSpec(s: seq<real>)
    ensures SortedRates(SortRates(s))
    ensures multiset(SortRates(s)) == multiset(s)
    ensures |SortRates(s)| == |s|
    decreases |s|
  {
    if s != [] {
      SortRatesSpec(s[1..]);
      InsertRateElements(s[0], SortRates(s[1..]));
      InsertRateSorted(s[0], SortRates(s[1..]));
      assert s == [s[0]] + s[1..];
    }
  }

  /** The last of a sorted list is its largest element. */
  lemma LastIsLargest(s: seq<real>)
    requires SortedRates(s) && |s| > 0
    ensures forall x :: x in s ==> x <= s[|s| - 1]
  {
    forall x | x in s ensures x <= s[|s| - 1] {
      var k :| 0 <= k < |s| && s[k] == x;
      if k < |s| - 1 {
        assert s[k] <= s[|s| - 1];
      }
    }
  }

  /** The list resize() gives a fresh vector of n rates. */
  function Zeros(n: nat): (r: seq<real>)
    ensures |r| == n && forall k :: 0 <= k < n ==> r[k] == 0.0
  {
    seq(n, _ => 0.0)
  }

  /** The mobile host's state. */
  class XrApp {
    var initialized: bool
    var resumed: bool
    var sessionActive: bool
    var enableMainThreadPolling: bool
    var enableAsyncPolling: bool
    var useSinglePassStereo: bool
    var useQuadLayerComposition: bool
    var numQuadLayersPerView: nat
    var enabledExtensions: seq<string>
    var supportedOptionalExtensions: set<string>
    var hasInstance: bool
    var hasSystem: bool
    var hasSession: bool
    var hasHeadSpace: bool
    var hasCurrentSpace: bool
    var hasRenderSession: bool
    var hasPassthrough: bool
    var hasHands: bool
    var stageSpaceSupported: bool
    var additiveBlendingSupported: bool
    var viewports: seq<Viewport>
    var swapchainProviders: seq<ProviderConfig>
    var quadLayersParams: QuadLayerParams
    var supportedRefreshRates: seq<real>
    var currentRefreshRate: real
    var compositionLayerSettingsSupported: bool
    var compositionLayerFlags: bv64

    ghost predicate Valid()
      reads this
    {
      |viewports| == kNumViews
    }

    /**
     * The member initialisers of the header and the constructor: nothing is
     * created, main-thread polling is on, one quad layer per view, and quad
     * composition when the build defines USE_COMPOSITION_LAYER_QUAD.
     */
    constructor (useCompositionLayerQuad: bool)
      ensures Valid()
      ensures !initialized && !resumed && !sessionActive
      ensures enableMainThreadPolling && !enableAsyncPolling
      ensures !useSinglePassStereo && useQuadLayerComposition == useCompositionLayerQuad && numQuadLayersPerView == 1
      ensures enabledExtensions == [] && supportedOptionalExtensions == {}
      ensures !hasInstance && !hasSystem && !hasSession && !hasHeadSpace && !hasCurrentSpace
      ensures !hasRenderSession && !hasPassthrough && !hasHands
      ensures !stageSpaceSupported && !additiveBlendingSupported
      ensures viewports == [Viewport(0, 0), Viewport(0, 0)] && swapchainProviders == []
      ensures quadLayersParams == DefaultQuadLayerParams
      ensures supportedRefreshRates == [] && currentRefreshRate == 0.0
      ensures !compositionLayerSettingsSupported && compositionLayerFlags == 0
    {
      initialized, resumed, sessionActive := false, false, false;
      enableMainThreadPolling, enableAsyncPolling := true, false;
      useSinglePassStereo, useQuadLayerComposition, numQuadLayersPerView := false, useCompositionLayerQuad, 1;
      enabledExtensions, supportedOptionalExtensions := [], {};
      hasInstance, hasSystem, hasSession, hasHeadSpace, hasCurrentSpace := false, false, false, false, false;
      hasRenderSession, hasPassthrough, hasHands := false, false, false;
      stageSpaceSupported, additiveBlendingSupported := false, false;
      viewports := [Viewport(0, 0), Viewport(0, 0)];
      swapchainProviders := [];
      quadLayersParams := DefaultQuadLayerParams;
      supportedRefreshRates, currentRefreshRate := [], 0.0;
      compositionLayerSettingsSupported, compositionLayerFlags := false, 0;
    }

    // Accessors of the header

    function Initialized(): bool reads this { initialized }
    function Resumed(): bool reads this { resumed }
    function SessionActive(): bool reads this { sessionActive }

    method SetResumed(r: bool)
      modifies this`resumed
      ensures resumed == r && Resumed() == r
    {
      resumed := r;
    }

    // Capabilities negotiated by checkExtensions

    predicate PassthroughSupported() reads this { XR_FB_PASSTHROUGH in supportedOptionalExtensions }
    predicate HandsTrackingSupported() reads this { XR_EXT_HAND_TRACKING in supportedOptionalExtensions }
    predicate HandsTrackingMeshSupported() reads this { XR_FB_HAND_TRACKING_MESH in supportedOptionalExtensions }
    predicate RefreshRateExtensionSupported() reads this { XR_FB_DISPLAY_REFRESH_RATE in supportedOptionalExtensions }
    predicate InstanceCreateInfoAndroidSupported() reads this { XR_KHR_ANDROID_CREATE_INSTANCE in supportedOptionalExtensions }
    predicate AlphaBlendCompositionSupported() reads this { XR_FB_COMPOSITION_LAYER_ALPHA_BLEND in supportedOptionalExtensions }

    /** Passthrough needs a render session and a passthrough object; the app's getter decides, else quad composition does. */
    function PassthroughEnabled(passthroughGetter: Option<bool>): (r: bool)
      reads this
      ensures r ==> hasRenderSession && hasPassthrough
      ensures hasRenderSession && hasPassthrough && passthroughGetter.None? ==> r == useQuadLayerComposition
    {
      if !hasRenderSession || !hasPassthrough then false
      else if passthroughGetter.Some? then passthroughGetter.value
      else useQuadLayerComposition
    }

    /**
     * checkExtensions: fails, enabling nothing, if the enumeration function
     * cannot be found or a required extension is missing; otherwise enables
     * the required extensions and then the supported optional ones, each
     * once, and records the supported optional ones.
     */
    method CheckExtensions(procResult: XrResult, runtime: seq<string>, required: seq<string>, optional: seq<string>) returns (ok: bool)
      modifies this`enabledExtensions, this`supportedOptionalExtensions
      ensures ok <==> procResult == XrSuccess && AllSupported(required, runtime)
      ensures ok ==> enabledExtensions == AppendMissing(AppendMissing(old(enabledExtensions), required), Supported(optional, runtime))
      ensures ok ==> supportedOptionalExtensions == old(supportedOptionalExtensions) + Names(Supported(optional, runtime))
      ensures !ok ==> enabledExtensions == old(enabledExtensions) && supportedOptionalExtensions == old(supportedOptionalExtensions)
    {
      if procResult != XrSuccess {
        return false;
      }
      ok := CheckRequired(required, runtime);
      if !ok {
        return;
      }
      var enabled := EnableRequired(enabledExtensions, required);
      enabledExtensions, supportedOptionalExtensions := EnableOptional(enabled, supportedOptionalExtensions, optional, runtime);
    }

    /**
     * enumerateViewConfigurations: the first primary-stereo configuration
     * must have two views, whose recommended sizes become the viewports.
     */
    method EnumerateViewConfigurations(configs: seq<ViewConfiguration>) returns (ok: bool)
      requires Valid()
      modifies this`viewports
      ensures Valid()
      ensures ok <==> ViewConfigurationOk(configs)
      ensures ok && FirstStereo(configs, 0).Some? ==> viewports == configs[FirstStereo(configs, 0).value].views
      ensures FirstStereo(configs, 0).None? ==> viewports == old(viewports)
    {
      var i := 0;
      while i < |configs|
        invariant 0 <= i <= |configs|
        invariant FirstStereo(configs, 0) == FirstStereo(configs, i)
        invariant viewports == old(viewports)
      {
        if configs[i].configType != PrimaryStereo {
          i := i + 1;
          continue;
        }
        if |configs[i].views| != kNumViews {
          return false;
        }
        viewports := configs[i].views;
        return true;
      }
      return true;
    }

    /**
     * updateSwapchainProviders: n providers with single-pass stereo, 2n
     * otherwise; the list is rebuilt only when its size differs.
     */
    method UpdateSwapchainProviders()
      requires Valid()
      modifies this`swapchainProviders
      ensures Valid()
      ensures |swapchainProviders| == ProviderCount(useSinglePassStereo, numQuadLayersPerView)
      ensures |old(swapchainProviders)| == ProviderCount(useSinglePassStereo, numQuadLayersPerView) ==>
        swapchainProviders == old(swapchainProviders)
      ensures |old(swapchainProviders)| != ProviderCount(useSinglePassStereo, numQuadLayersPerView) ==>
        forall k :: 0 <= k < |swapchainProviders| ==> swapchainProviders[k] == ProviderAt(useSinglePassStereo, viewports, k)
    {
      var count := ProviderCount(useSinglePassStereo, numQuadLayersPerView);
      if count == |swapchainProviders| {
        return;
      }
      swapchainProviders := [];
      var viewCnt := ViewsPerProvider(useSinglePassStereo);
      var quadLayer := 0;
      while quadLayer < numQuadLayersPerView
        invariant 0 <= quadLayer <= numQuadLayersPerView
        invariant |swapchainProviders| == quadLayer * viewCnt
        invariant forall k :: 0 <= k < |swapchainProviders| ==> swapchainProviders[k] == ProviderAt(useSinglePassStereo, viewports, k)
      {
        var view := 0;
        while view < viewCnt
          invariant 0 <= view <= viewCnt
          invariant |swapchainProviders| == quadLayer * viewCnt + view
          invariant forall k :: 0 <= k < |swapchainProviders| ==> swapchainProviders[k] == ProviderAt(useSinglePassStereo, viewports, k)
        {
          ModuloOfLayer(quadLayer, viewCnt, view);
          swapchainProviders := swapchainProviders + [ProviderConfig(viewports[view].width, viewports[view].height, if useSinglePassStereo then kNumViews else 1)];
          view := view + 1;
        }
        quadLayer := quadLayer + 1;
      }
    }

    /**
     * The quad-layer bookkeeping of beginFrame: the app's quad parameters (or
     * none), one quad layer per quad with at least one, then the provider
     * update; the frame's predicted display time is returned.
     */
    method BeginFrame(quadLayerParamsGetter: Option<QuadLayerParams>, predictedDisplayTime: int) returns (frameTime: int)
      requires Valid()
      modifies this`quadLayersParams, this`numQuadLayersPerView, this`swapchainProviders
      ensures Valid()
      ensures quadLayersParams == (if quadLayerParamsGetter.Some? then quadLayerParamsGetter.value else DefaultQuadLayerParams)
      ensures numQuadLayersPerView == (if quadLayersParams.NumQuads() > 0 then quadLayersParams.NumQuads() else 1)
      ensures |swapchainProviders| == ProviderCount(useSinglePassStereo, numQuadLayersPerView)
      ensures frameTime == predictedDisplayTime
    {
      if quadLayerParamsGetter.Some? {
        quadLayersParams := quadLayerParamsGetter.value;
        numQuadLayersPerView := if quadLayersParams.NumQuads() > 0 then quadLayersParams.NumQuads() else 1;
      } else {
        quadLayersParams := DefaultQuadLayerParams;
        numQuadLayersPerView := 1;
      }
      UpdateSwapchainProviders();
      frameTime := predictedDisplayTime;
    }

    /**
     * render: one pass per provider, in provider order. With single-pass
     * stereo pass q renders all views of quad layer q; otherwise pass k
     * renders view k mod 2 of quad layer k / 2. The quad layer is handed to
     * the session only under quad composition.
     */
    method Render() returns (passes: seq<RenderPass>)
      requires Valid() && |swapchainProviders| == ProviderCount(useSinglePassStereo, numQuadLayersPerView)
      ensures |passes| == |swapchainProviders|
      ensures forall k :: 0 <= k < |passes| ==> passes[k].provider == k
      ensures useSinglePassStereo ==> forall k :: 0 <= k < |passes| ==>
        passes[k].view == None && passes[k].quadLayer == (if useQuadLayerComposition then Some(k) else None)
      ensures !useSinglePassStereo ==> forall k :: 0 <= k < |passes| ==>
        passes[k].view == Some(k % kNumViews) && passes[k].quadLayer == (if useQuadLayerComposition then Some(k / kNumViews) else None)
    {
      passes := [];
      if useSinglePassStereo {
        var quadLayer := 0;
        while quadLayer < numQuadLayersPerView
          invariant 0 <= quadLayer <= numQuadLayersPerView && |passes| == quadLayer
          invariant forall k :: 0 <= k < |passes| ==>
            passes[k] == RenderPass(k, None, if useQuadLayerComposition then Some(k) else None)
        {
          passes := passes + [RenderPass(quadLayer, None, if useQuadLayerComposition then Some(quadLayer) else None)];
          quadLayer := quadLayer + 1;
        }
      } else {
        var numSwapChains := numQuadLayersPerView * kNumViews;
        var swapChainIndex := 0;
        while swapChainIndex < numSwapChains
          invariant 0 <= swapChainIndex <= numSwapChains && |passes| == swapChainIndex
          invariant forall k :: 0 <= k < |passes| ==>
            passes[k] == RenderPass(k, Some(k % kNumViews), if useQuadLayerComposition then Some(k / kNumViews) else None)
        {
          var view := swapChainIndex % kNumViews;
          passes := passes + [RenderPass(swapChainIndex, Some(view), if useQuadLayerComposition then Some(swapChainIndex / kNumViews) else None)];
          swapChainIndex := swapChainIndex + 1;
        }
      }
    }

    /** setupProjectionAndDepth: 2n projection views, layer = 2i + view. */
    method SetupProjectionAndDepth() returns (projectionViews: seq<ProjectionView>)
      requires Valid()
      ensures |projectionViews| == kNumViews * numQuadLayersPerView
      ensures forall layer :: 0 <= layer < |projectionViews| ==>
        projectionViews[layer] == ProjectionViewAt(useSinglePassStereo, viewports, layer)
    {
      projectionViews := [];
      var layer := 0;
      var i := 0;
      while i < numQuadLayersPerView
        invariant 0 <= i <= numQuadLayersPerView && layer == kNumViews * i && |projectionViews| == layer
        invariant forall l :: 0 <= l < layer ==> projectionViews[l] == ProjectionViewAt(useSinglePassStereo, viewports, l)
      {
        var view := 0;
        while view < kNumViews
          invariant 0 <= view <= kNumViews && layer == kNumViews * i + view && |projectionViews| == layer
          invariant forall l :: 0 <= l < layer ==> projectionViews[l] == ProjectionViewAt(useSinglePassStereo, viewports, l)
        {
          var imageRect := Rect(0, 0, viewports[view].width, viewports[view].height);
          var swapChainIndex := if useSinglePassStereo then i else layer;
          var subImageIndex := if useSinglePassStereo then view else 0;
          projectionViews := projectionViews + [ProjectionView(view, imageRect, swapChainIndex, subImageIndex)];
          view := view + 1;
          layer := layer + 1;
        }
        i := i + 1;
      }
    }

    function EnvironmentBlend(): (r: EnvironmentBlendMode)
      reads this
      ensures r == EnvAdditive <==> additiveBlendingSupported
      ensures r != EnvAdditive ==> r == EnvOpaque
    {
      if additiveBlendingSupported then EnvAdditive else EnvOpaque
    }

    /**
     * endFrameProjectionComposition: the passthrough layer if enabled, then
     * one projection layer with a view count of kNumViews that carries every
     * projection view, with chromatic-aberration correction, plus source
     * alpha under passthrough.
     */
    method EndFrameProjectionComposition(predictedDisplayTime: int, passthroughGetter: Option<bool>) returns (info: FrameEndInfo)
      requires Valid()
      ensures info.displayTime == predictedDisplayTime && info.environmentBlendMode == EnvironmentBlend()
      ensures var passthrough := PassthroughEnabled(passthroughGetter);
        && |info.layers| == (if passthrough then 2 else 1)
        && (passthrough ==> info.layers[0] == PassthroughLayer)
        && info.layers[|info.layers| - 1].ProjectionLayer?
        && info.layers[|info.layers| - 1].viewCount == kNumViews
        && info.layers[|info.layers| - 1].layerFlags ==
          (if passthrough then XR_COMPOSITION_LAYER_CORRECT_CHROMATIC_ABERRATION_BIT | XR_COMPOSITION_LAYER_BLEND_TEXTURE_SOURCE_ALPHA_BIT
           else XR_COMPOSITION_LAYER_CORRECT_CHROMATIC_ABERRATION_BIT)
        && |info.layers[|info.layers| - 1].views| == kNumViews * numQuadLayersPerView
    {
      var projectionViews := SetupProjectionAndDepth();
      var compositionFlags := XR_COMPOSITION_LAYER_CORRECT_CHROMATIC_ABERRATION_BIT;
      if PassthroughEnabled(passthroughGetter) {
        compositionFlags := compositionFlags | XR_COMPOSITION_LAYER_BLEND_TEXTURE_SOURCE_ALPHA_BIT;
      }
      var layers: seq<CompositionLayer> := [];
      if PassthroughEnabled(passthroughGetter) {
        layers := layers + [PassthroughLayer];
      }
      layers := layers + [ProjectionLayer(compositionFlags, kNumViews, projectionViews)];
      info := FrameEndInfo(predictedDisplayTime, EnvironmentBlend(), layers);
    }

    /**
     * endFrameQuadLayerComposition: the passthrough layer if enabled, then
     * 2n quad layers, layer 2i+view for quad i, each using the sub-image of
     * the projection view with the same index.
     */
    method EndFrameQuadLayerComposition(predictedDisplayTime: int, passthroughGetter: Option<bool>, appSize: Vec2) returns (info: FrameEndInfo)
      requires Valid() && QuadParamsCover(quadLayersParams, numQuadLayersPerView)
      ensures info.displayTime == predictedDisplayTime && info.environmentBlendMode == EnvironmentBlend()
      ensures var skip := if PassthroughEnabled(passthroughGetter) then 1 else 0;
        && |info.layers| == skip + kNumViews * numQuadLayersPerView
        && (skip == 1 ==> info.layers[0] == PassthroughLayer)
        && forall layer :: 0 <= layer < kNumViews * numQuadLayersPerView ==>
          info.layers[skip + layer] == QuadCompositionLayer(QuadLayerAt(quadLayersParams, AlphaBlendCompositionSupported(), appSize,
            ProjectionViewAt(useSinglePassStereo, viewports, layer), layer))
    {
      var projectionViews := SetupProjectionAndDepth();
      var quads := QuadLayers(projectionViews, appSize);
      var layers: seq<CompositionLayer> := [];
      if PassthroughEnabled(passthroughGetter) {
        layers := layers + [PassthroughLayer];
      }
      ghost var skip := |layers|;
      var k := 0;
      while k < |quads|
        invariant 0 <= k <= |quads| && |layers| == skip + k
        invariant skip == 1 ==> layers[0] == PassthroughLayer
        invariant forall l :: 0 <= l < k ==> layers[skip + l] == QuadCompositionLayer(quads[l])
      {
        layers := layers + [QuadCompositionLayer(quads[k])];
        k := k + 1;
      }
      info := FrameEndInfo(predictedDisplayTime, EnvironmentBlend(), layers);
    }

    /** The quad loop of endFrameQuadLayerComposition, with the sub-images copied in. */
    method QuadLayers(projectionViews: seq<ProjectionView>, appSize: Vec2) returns (quads: seq<QuadLayer>)
      requires Valid() && QuadParamsCover(quadLayersParams, numQuadLayersPerView)
      requires |projectionViews| == kNumViews * numQuadLayersPerView
      ensures |quads| == kNumViews * numQuadLayersPerView
      ensures forall layer :: 0 <= layer < |quads| ==>
        quads[layer] == QuadLayerAt(quadLayersParams, AlphaBlendCompositionSupported(), appSize, projectionViews[layer], layer)
    {
      var params := quadLayersParams;
      var alphaBlend := AlphaBlendCompositionSupported();
      var position := Origin;
      var size := appSize;
      quads := [];
      var layer := 0;
      var i := 0;
      while i < numQuadLayersPerView
        invariant 0 <= i <= numQuadLayersPerView && layer == kNumViews * i && |quads| == layer
        invariant forall l :: 0 <= l < layer ==> quads[l] == QuadLayerAt(params, alphaBlend, appSize, projectionViews[l], l)
        invariant params.NumQuads() == 0 ==> position == Origin && size == appSize
      {
        if params.NumQuads() > 0 {
          position := params.positions[i];
          size := params.sizes[i];
        }
        var eye := EyeLeft;
        var view := 0;
        while view < kNumViews
          invariant 0 <= view <= kNumViews && layer == kNumViews * i + view && |quads| == layer
          invariant forall l :: 0 <= l < layer ==> quads[l] == QuadLayerAt(params, alphaBlend, appSize, projectionViews[l], l)
          invariant eye == (if view == 0 then EyeLeft else EyeRight)
        {
          var next := QuadAlphaBlendNext(params, alphaBlend, i);
          var flags: bv64 := if params.NumQuads() > 0 && params.blendModes[i] == AlphaBlend
            then XR_COMPOSITION_LAYER_BLEND_TEXTURE_SOURCE_ALPHA_BIT else 0;
          quads := quads + [QuadLayer(next, flags, eye, Pose(IdentityOrientation, position), size, projectionViews[layer])];
          if eye == EyeLeft {
            eye := EyeRight;
          }
          view := view + 1;
          layer := layer + 1;
        }
        i := i + 1;
      }
    }

    /**
     * The layers endFrame submits: the passthrough layer if enabled; then,
     * under quad composition, quad layer 2i+view for each quad i and view,
     * and otherwise the single projection layer.
     */
    predicate FrameLayers(info: FrameEndInfo, passthroughGetter: Option<bool>, appSize: Vec2)
      reads this
    {
      var passthrough := PassthroughEnabled(passthroughGetter);
      var skip := if passthrough then 1 else 0;
      && |info.layers| == skip + (if useQuadLayerComposition then kNumViews * numQuadLayersPerView else 1)
      && (passthrough ==> info.layers[0] == PassthroughLayer)
      && (useQuadLayerComposition ==>
        && |viewports| == kNumViews && QuadParamsCover(quadLayersParams, numQuadLayersPerView)
        && forall layer :: 0 <= layer < kNumViews * numQuadLayersPerView ==>
          info.layers[skip + layer] == QuadCompositionLayer(QuadLayerAt(quadLayersParams, AlphaBlendCompositionSupported(), appSize,
            ProjectionViewAt(useSinglePassStereo, viewports, layer), layer)))
      && (!useQuadLayerComposition ==>
        && info.layers[skip].ProjectionLayer?
        && info.layers[skip].viewCount == kNumViews
        && |info.layers[skip].views| == kNumViews * numQuadLayersPerView
        && info.layers[skip].layerFlags ==
          (if passthrough then XR_COMPOSITION_LAYER_CORRECT_CHROMATIC_ABERRATION_BIT | XR_COMPOSITION_LAYER_BLEND_TEXTURE_SOURCE_ALPHA_BIT
           else XR_COMPOSITION_LAYER_CORRECT_CHROMATIC_ABERRATION_BIT))
    }

    /** endFrame: quad layers under quad composition, one projection layer otherwise. */
    method EndFrame(predictedDisplayTime: int, passthroughGetter: Option<bool>, appSize: Vec2) returns (info: FrameEndInfo)
      requires Valid() && (useQuadLayerComposition ==> QuadParamsCover(quadLayersParams, numQuadLayersPerView))
      ensures info.displayTime == predictedDisplayTime && info.environmentBlendMode == EnvironmentBlend()
      ensures FrameLayers(info, passthroughGetter, appSize)
      ensures var skip := if PassthroughEnabled(passthroughGetter) then 1 else 0;
        forall l :: skip <= l < |info.layers| ==> (info.layers[l].QuadCompositionLayer? <==> useQuadLayerComposition)
    {
      var skip := if PassthroughEnabled(passthroughGetter) then 1 else 0;
      if useQuadLayerComposition {
        info := EndFrameQuadLayerComposition(predictedDisplayTime, passthroughGetter, appSize);
        forall l | skip <= l < |info.layers| ensures info.layers[l].QuadCompositionLayer? {
          var layer := l - skip;
          assert info.layers[skip + layer] == QuadCompositionLayer(QuadLayerAt(quadLayersParams, AlphaBlendCompositionSupported(), appSize,
            ProjectionViewAt(useSinglePassStereo, viewports, layer), layer));
        }
      } else {
        info := EndFrameProjectionComposition(predictedDisplayTime, passthroughGetter);
        forall l | skip <= l < |info.layers| ensures !info.layers[l].QuadCompositionLayer? {
          assert l == |info.layers| - 1;
        }
      }
    }

    /**
     * update: nothing unless initialized, resumed and the session active;
     * otherwise begin the frame, render every provider, end the frame.
     */
    method Update(quadLayerParamsGetter: Option<QuadLayerParams>, passthroughGetter: Option<bool>, predictedDisplayTime: int, appSize: Vec2)
      returns (passes: seq<RenderPass>, frame: Option<FrameEndInfo>)
      requires Valid()
      requires useQuadLayerComposition && quadLayerParamsGetter.Some? ==> QuadParamsCover(quadLayerParamsGetter.value, quadLayerParamsGetter.value.NumQuads())
      modifies this`quadLayersParams, this`numQuadLayersPerView, this`swapchainProviders
      ensures Valid()
      ensures !(initialized && resumed && sessionActive) ==>
        passes == [] && frame == None && quadLayersParams == old(quadLayersParams)
        && numQuadLayersPerView == old(numQuadLayersPerView) && swapchainProviders == old(swapchainProviders)
      ensures initialized && resumed && sessionActive ==>
        && quadLayersParams == (if quadLayerParamsGetter.Some? then quadLayerParamsGetter.value else DefaultQuadLayerParams)
        && numQuadLayersPerView == (if quadLayersParams.NumQuads() > 0 then quadLayersParams.NumQuads() else 1)
        && |passes| == |swapchainProviders| == ProviderCount(useSinglePassStereo, numQuadLayersPerView)
        && (forall k :: 0 <= k < |passes| ==> passes[k].provider == k)
        && frame.Some? && frame.value.displayTime == predictedDisplayTime
        && frame.value.environmentBlendMode == EnvironmentBlend()
        && FrameLayers(frame.value, passthroughGetter, appSize)
    {
      if !initialized || !resumed || !sessionActive {
        return [], None;
      }
      var frameTime := BeginFrame(quadLayerParamsGetter, predictedDisplayTime);
      passes := Render();
      var info := EndFrame(frameTime, passthroughGetter, appSize);
      frame := Some(info);
    }

    /**
     * handleSessionStateChanges: READY begins the session, which is active
     * iff xrBeginSession succeeded; STOPPING ends it.
     */
    method HandleSessionStateChanges(state: SessionState, beginResult: XrResult)
      requires CanHandle(sessionActive, state)
      modifies this`sessionActive
      ensures sessionActive == StateChange(old(sessionActive), state, beginResult)
    {
      if state == StateReady {
        sessionActive := beginResult == XrSuccess;
      } else if state == StateStopping {
        sessionActive := false;
      }
    }

    /**
     * handleXrEvents: the events xrPollEvent delivers before it first reports
     * no event, dispatched in order; only READY and STOPPING reach the handler.
     */
    method HandleXrEvents(events: seq<XrEvent>, beginResults: seq<XrResult>)
      requires |beginResults| == |events|
      requires EventsRespectAsserts(sessionActive, events, beginResults)
      modifies this`sessionActive
      ensures sessionActive == ActiveAfter(old(sessionActive), events, beginResults)
    {
      var i := 0;
      while i < |events|
        invariant 0 <= i <= |events|
        invariant EventsRespectAsserts(sessionActive, events[i..], beginResults[i..])
        invariant ActiveAfter(sessionActive, events[i..], beginResults[i..]) == ActiveAfter(old(sessionActive), events, beginResults)
      {
        assert events[i..][1..] == events[i + 1..];
        assert beginResults[i..][1..] == beginResults[i + 1..];
        var e := events[i];
        if e.SessionStateChanged? {
          if e.state == StateReady || e.state == StateStopping {
            HandleSessionStateChanges(e.state, beginResults[i]);
          }
        }
        i := i + 1;
      }
    }

    // Refresh rates

    /** queryCurrentRefreshRate: the reported rate, when the call succeeds. */
    method QueryCurrentRefreshRate(rt: RefreshRateRuntime)
      modifies this`currentRefreshRate
      ensures currentRefreshRate == (if rt.current.Some? then rt.current.value else old(currentRefreshRate))
    {
      if rt.current.Some? {
        currentRefreshRate := rt.current.value;
      }
    }

    /** getCurrentRefreshRate: the cached rate, queried only while none is known. */
    method GetCurrentRefreshRate(rt: RefreshRateRuntime) returns (rate: real)
      modifies this`currentRefreshRate
      ensures !hasSession || old(currentRefreshRate) > 0.0 || !RefreshRateExtensionSupported() ==>
        currentRefreshRate == old(currentRefreshRate)
      ensures hasSession && old(currentRefreshRate) <= 0.0 && RefreshRateExtensionSupported() ==>
        currentRefreshRate == (if rt.current.Some? then rt.current.value else old(currentRefreshRate))
      ensures rate == currentRefreshRate
    {
      if !hasSession || currentRefreshRate > 0.0 || !RefreshRateExtensionSupported() {
        return currentRefreshRate;
      }
      QueryCurrentRefreshRate(rt);
      return currentRefreshRate;
    }

    /**
     * The supported-rate cache after querySupportedRefreshRates: filled only
     * when it is empty, a session and the extension exist and the runtime
     * reports a positive count; sorted when the listing call succeeds,
     * otherwise left as that many zeros.
     */
    function RatesAfterQuery(rt: RefreshRateRuntime): seq<real>
      reads this
    {
      if hasSession && supportedRefreshRates == [] && RefreshRateExtensionSupported()
        && rt.countResult == XrSuccess && |rt.rates| > 0
      then (if rt.listResult == XrSuccess then SortRates(rt.rates) else Zeros(|rt.rates|))
      else supportedRefreshRates
    }

    /** querySupportedRefreshRates */
    method QuerySupportedRefreshRates(rt: RefreshRateRuntime)
      modifies this`supportedRefreshRates
      ensures supportedRefreshRates == old(RatesAfterQuery(rt))
    {
      if !hasSession || supportedRefreshRates != [] || !RefreshRateExtensionSupported() {
        return;
      }
      if rt.countResult == XrSuccess && |rt.rates| > 0 {
        supportedRefreshRates := Zeros(|rt.rates|);
        if rt.listResult == XrSuccess {
          supportedRefreshRates := SortRates(rt.rates);
        }
      }
    }

    /** getSupportedRefreshRates: the cache, filled on first use. */
    method GetSupportedRefreshRates(rt: RefreshRateRuntime) returns (rates: seq<real>)
      modifies this`supportedRefreshRates
      ensures supportedRefreshRates == old(RatesAfterQuery(rt))
      ensures rates == supportedRefreshRates
    {
      if !hasSession || !RefreshRateExtensionSupported() {
        return supportedRefreshRates;
      }
      if supportedRefreshRates == [] {
        QuerySupportedRefreshRates(rt);
      }
      return supportedRefreshRates;
    }

    /** getMaxRefreshRate: the last supported rate, or 0. */
    method GetMaxRefreshRate(rt: RefreshRateRuntime) returns (rate: real)
      modifies this`supportedRefreshRates
      ensures supportedRefreshRates == old(RatesAfterQuery(rt))
      ensures rate == (if !hasSession || !RefreshRateExtensionSupported() || supportedRefreshRates == [] then 0.0
        else supportedRefreshRates[|supportedRefreshRates| - 1])
    {
      if !hasSession || !RefreshRateExtensionSupported() {
        return 0.0;
      }
      var rates := GetSupportedRefreshRates(rt);
      if rates == [] {
        return 0.0;
      }
      return rates[|rates| - 1];
    }

    /** isRefreshRateSupported: membership in the supported list. */
    method IsRefreshRateSupported(refreshRate: real, rt: RefreshRateRuntime) returns (supported: bool)
      modifies this`supportedRefreshRates
      ensures supportedRefreshRates == old(RatesAfterQuery(rt))
      ensures supported <==> hasSession && RefreshRateExtensionSupported() && refreshRate in supportedRefreshRates
    {
      if !hasSession || !RefreshRateExtensionSupported() {
        return false;
      }
      var rates := GetSupportedRefreshRates(rt);
      return refreshRate in rates;
    }

    /**
     * setRefreshRate: fails, leaving the current rate, without a session,
     * for the current rate, for an unsupported rate, or when the runtime
     * refuses; otherwise the current rate becomes the new one.
     */
    method SetRefreshRate(refreshRate: real, rt: RefreshRateRuntime) returns (ok: bool)
      modifies this`supportedRefreshRates, this`currentRefreshRate
      ensures supportedRefreshRates == old(supportedRefreshRates) || supportedRefreshRates == old(RatesAfterQuery(rt))
      ensures ok <==> (hasSession && refreshRate != old(currentRefreshRate) && RefreshRateExtensionSupported()
        && refreshRate in supportedRefreshRates && refreshRate in rt.accepted)
      ensures currentRefreshRate == (if ok then refreshRate else old(currentRefreshRate))
    {
      if !hasSession || refreshRate == currentRefreshRate {
        return false;
      }
      var supported := IsRefreshRateSupported(refreshRate, rt);
      if !supported {
        return false;
      }
      if refreshRate !in rt.accepted {
        return false;
      }
      currentRefreshRate := refreshRate;
      return true;
    }

    /**
     * Whether setMaxRefreshRate changes the rate: with a session and the
     * extension, the largest of the supported rates is above 0, differs from
     * the current rate and is accepted by the runtime.
     */
    predicate MaxRateApplies(rates: seq<real>, current: real, rt: RefreshRateRuntime)
      reads this
    {
      && hasSession && RefreshRateExtensionSupported()
      && |rates| > 0 && rates[|rates| - 1] > 0.0 && rates[|rates| - 1] != current
      && rates[|rates| - 1] in rt.accepted
    }

    /** setMaxRefreshRate: asks for the largest supported rate, when there is one above 0. */
    method SetMaxRefreshRate(rt: RefreshRateRuntime)
      modifies this`supportedRefreshRates, this`currentRefreshRate
      ensures supportedRefreshRates == old(RatesAfterQuery(rt))
      ensures MaxRateApplies(supportedRefreshRates, old(currentRefreshRate), rt) ==>
        currentRefreshRate == supportedRefreshRates[|supportedRefreshRates| - 1]
      ensures !MaxRateApplies(supportedRefreshRates, old(currentRefreshRate), rt) ==>
        currentRefreshRate == old(currentRefreshRate)
    {
      if !hasSession || !RefreshRateExtensionSupported() {
        return;
      }
      var maxRefreshRate := GetMaxRefreshRate(rt);
      if maxRefreshRate > 0.0 {
        var _ := SetRefreshRate(maxRefreshRate, rt);
      }
    }

    // Sharpening

    function IsSharpeningEnabled(): bool
      reads this
    {
      compositionLayerSettingsSupported && compositionLayerFlags & XR_COMPOSITION_LAYER_SETTINGS_QUALITY_SHARPENING_BIT_FB != 0
    }

    /** setSharpeningEnabled: flips only the sharpening bit, and only where layer settings are supported. */
    method SetSharpeningEnabled(enabled: bool)
      modifies this`compositionLayerFlags
      ensures compositionLayerSettingsSupported ==> IsSharpeningEnabled() == enabled
      ensures !compositionLayerSettingsSupported ==> compositionLayerFlags == old(compositionLayerFlags)
      ensures compositionLayerFlags & !XR_COMPOSITION_LAYER_SETTINGS_QUALITY_SHARPENING_BIT_FB
        == old(compositionLayerFlags) & !XR_COMPOSITION_LAYER_SETTINGS_QUALITY_SHARPENING_BIT_FB
    {
      if !compositionLayerSettingsSupported || enabled == IsSharpeningEnabled() {
        return;
      }
      if enabled {
        compositionLayerFlags := compositionLayerFlags | XR_COMPOSITION_LAYER_SETTINGS_QUALITY_SHARPENING_BIT_FB;
      } else {
        compositionLayerFlags := compositionLayerFlags & !XR_COMPOSITION_LAYER_SETTINGS_QUALITY_SHARPENING_BIT_FB;
      }
    }

    // Bootstrap and teardown

    /**
     * initialize: refused when already initialized; then every step in
     * order, stopping at the first failure; initialized_ is set last.
     */
    method Initialize(params: InitParams, rt: Runtime) returns (ok: bool)
      requires Valid()
      modifies this`enabledExtensions, this`supportedOptionalExtensions, this`hasInstance, this`hasSystem
      modifies this`viewports, this`useSinglePassStereo, this`hasRenderSession, this`hasSession
      modifies this`stageSpaceSupported, this`additiveBlendingSupported, this`swapchainProviders
      modifies this`hasHeadSpace, this`hasCurrentSpace, this`hasPassthrough, this`hasHands
      modifies this`supportedRefreshRates, this`currentRefreshRate, this`initialized
      ensures Valid()
      ensures ok <==> !old(initialized) && BootstrapOk(rt, old(supportedOptionalExtensions))
      ensures old(initialized) ==> unchanged(this)
      ensures !old(initialized) ==> initialized == ok
      ensures ok ==> hasInstance && hasSystem && hasSession && hasHeadSpace && hasCurrentSpace && hasRenderSession
      ensures ok ==> |swapchainProviders| == ProviderCount(useSinglePassStereo, numQuadLayersPerView)
      ensures ok ==> useSinglePassStereo == (old(useSinglePassStereo) && rt.multiviewSupported)
      ensures ok ==> (stageSpaceSupported == (ReferenceSpaceStage in rt.referenceSpaces)
        && additiveBlendingSupported == (EnvAdditive in rt.environmentBlendModes))
      ensures ok ==> (enabledExtensions ==
        AppendMissing(AppendMissing(old(enabledExtensions), rt.requiredExtensions), Supported(OptionalExtensionList(rt), rt.runtimeExtensions)))
    {
      if initialized {
        return false;
      }
      ok := CreateSession(rt);
      if ok {
        ok := AfterSession(params, rt);
      }
    }

    /** The steps of initialize once the session exists; initialized_ is set when they all succeed. */
    method AfterSession(params: InitParams, rt: Runtime) returns (ok: bool)
      requires Valid() && !initialized
      modifies this`stageSpaceSupported, this`additiveBlendingSupported, this`swapchainProviders
      modifies this`hasHeadSpace, this`hasCurrentSpace, this`hasPassthrough, this`hasHands
      modifies this`supportedRefreshRates, this`currentRefreshRate, this`initialized
      ensures Valid()
      ensures ok <==> FeaturesOk(rt, supportedOptionalExtensions)
      ensures initialized == ok
      ensures hasHeadSpace && hasCurrentSpace
      ensures |swapchainProviders| == ProviderCount(useSinglePassStereo, numQuadLayersPerView)
      ensures stageSpaceSupported == (ReferenceSpaceStage in rt.referenceSpaces)
      ensures additiveBlendingSupported == (EnvAdditive in rt.environmentBlendModes)
    {
      CreateSessionResources(rt);
      ok := InitFeatures(rt);
      if !ok {
        return false;
      }
      InitRefreshRate(params, rt.refresh);
      initialized := true;
    }

    /**
     * The steps of initialize up to the session: extensions, instance,
     * system, view configurations, device, single-pass stereo where multiview
     * exists, the render session and the OpenXR session.
     */
    method CreateSession(rt: Runtime) returns (ok: bool)
      requires Valid()
      modifies this`enabledExtensions, this`supportedOptionalExtensions, this`hasInstance, this`hasSystem
      modifies this`viewports, this`useSinglePassStereo, this`hasRenderSession, this`hasSession
      ensures Valid()
      ensures ok <==> PreSessionOk(rt)
      ensures ok ==> hasInstance && hasSystem && hasSession && hasRenderSession
      ensures ok ==> useSinglePassStereo == (old(useSinglePassStereo) && rt.multiviewSupported)
      ensures ok ==> (supportedOptionalExtensions ==
        old(supportedOptionalExtensions) + Names(Supported(OptionalExtensionList(rt), rt.runtimeExtensions)))
      ensures ok ==> (enabledExtensions ==
        AppendMissing(AppendMissing(old(enabledExtensions), rt.requiredExtensions), Supported(OptionalExtensionList(rt), rt.runtimeExtensions)))
    {
      ok := CreateInstanceAndSystem(rt);
      if !ok {
        return false;
      }
      ok := EnumerateViewConfigurations(rt.viewConfigurations);
      if !ok {
        return false;
      }
      if !rt.deviceCreated {
        return false;
      }
      useSinglePassStereo := useSinglePassStereo && rt.multiviewSupported;
      hasRenderSession := true;
      if !rt.sessionCreated {
        return false;
      }
      hasSession := true;
    }

    /** The first steps of initialize: extensions, then the instance, then the system. */
    method CreateInstanceAndSystem(rt: Runtime) returns (ok: bool)
      requires Valid()
      modifies this`enabledExtensions, this`supportedOptionalExtensions, this`hasInstance, this`hasSystem
      ensures Valid()
      ensures ok <==> (rt.extensionProcResult == XrSuccess && AllSupported(rt.requiredExtensions, rt.runtimeExtensions)
        && rt.createInstanceResult == XrSuccess && rt.getSystemResult == XrSuccess)
      ensures ok ==> hasInstance && hasSystem
      ensures ok ==> (supportedOptionalExtensions ==
        old(supportedOptionalExtensions) + Names(Supported(OptionalExtensionList(rt), rt.runtimeExtensions)))
      ensures ok ==> (enabledExtensions ==
        AppendMissing(AppendMissing(old(enabledExtensions), rt.requiredExtensions), Supported(OptionalExtensionList(rt), rt.runtimeExtensions)))
    {
      ok := CheckExtensions(rt.extensionProcResult, rt.runtimeExtensions, rt.requiredExtensions, OptionalExtensionList(rt));
      if !ok {
        return false;
      }
      if rt.createInstanceResult != XrSuccess {
        return false;
      }
      hasInstance := true;
      if rt.getSystemResult != XrSuccess {
        return false;
      }
      hasSystem := true;
    }

    /** The reference spaces, blend modes, swapchain providers and spaces initialize sets up once the session exists. */
    method CreateSessionResources(rt: Runtime)
      requires Valid()
      modifies this`stageSpaceSupported, this`additiveBlendingSupported, this`swapchainProviders
      modifies this`hasHeadSpace, this`hasCurrentSpace
      ensures Valid()
      ensures stageSpaceSupported == (ReferenceSpaceStage in rt.referenceSpaces)
      ensures additiveBlendingSupported == (EnvAdditive in rt.environmentBlendModes)
      ensures |swapchainProviders| == ProviderCount(useSinglePassStereo, numQuadLayersPerView)
      ensures hasHeadSpace && hasCurrentSpace
    {
      stageSpaceSupported := ReferenceSpaceStage in rt.referenceSpaces;
      additiveBlendingSupported := EnvAdditive in rt.environmentBlendModes;
      UpdateSwapchainProviders();
      hasHeadSpace, hasCurrentSpace := true, true;
    }

    /** Passthrough and hand tracking, each created and initialised only when its extension is supported. */
    method InitFeatures(rt: Runtime) returns (ok: bool)
      modifies this`hasPassthrough, this`hasHands
      ensures ok <==> (PassthroughSupported() ==> rt.passthroughInitOk) && (HandsTrackingSupported() ==> rt.handsInitOk)
      ensures hasPassthrough == (old(hasPassthrough) || PassthroughSupported())
      ensures ok ==> hasHands == (old(hasHands) || HandsTrackingSupported())
    {
      if PassthroughSupported() {
        hasPassthrough := true;
        if !rt.passthroughInitOk {
          return false;
        }
      }
      if HandsTrackingSupported() {
        hasHands := true;
        if !rt.handsInitOk {
          return false;
        }
      }
      return true;
    }

    /**
     * The refresh-rate step of initialize: with the extension, the current
     * rate is queried, then the maximum or the requested rate is set.
     */
    method InitRefreshRate(params: InitParams, rt: RefreshRateRuntime)
      modifies this`supportedRefreshRates, this`currentRefreshRate
      ensures !RefreshRateExtensionSupported() ==>
        currentRefreshRate == old(currentRefreshRate) && supportedRefreshRates == old(supportedRefreshRates)
      ensures RefreshRateExtensionSupported() ==>
        var queried := if rt.current.Some? then rt.current.value else old(currentRefreshRate);
        match params.refreshRateMode
        case UseDefault =>
          currentRefreshRate == queried && supportedRefreshRates == old(supportedRefreshRates)
        case UseMaxRefreshRate =>
          && supportedRefreshRates == old(RatesAfterQuery(rt))
          && currentRefreshRate ==
            (if MaxRateApplies(supportedRefreshRates, queried, rt) then supportedRefreshRates[|supportedRefreshRates| - 1]
             else queried)
        case UseSpecificRefreshRate =>
          && (supportedRefreshRates == old(supportedRefreshRates) || supportedRefreshRates == old(RatesAfterQuery(rt)))
          && currentRefreshRate ==
            (if hasSession && params.desiredSpecificRefreshRate != queried && RefreshRateExtensionSupported()
                && params.desiredSpecificRefreshRate in supportedRefreshRates
                && params.desiredSpecificRefreshRate in rt.accepted
             then params.desiredSpecificRefreshRate else queried)
    {
      if RefreshRateExtensionSupported() {
        QueryCurrentRefreshRate(rt);
        if params.refreshRateMode == UseMaxRefreshRate {
          SetMaxRefreshRate(rt);
        } else if params.refreshRateMode == UseSpecificRefreshRate {
          var _ := SetRefreshRate(params.desiredSpecificRefreshRate, rt);
        }
      }
    }

    /** The destructor: nothing before initialization; afterwards each non-null handle, spaces first. */
    method Teardown() returns (destroyed: seq<XrHandleKind>)
      ensures !initialized ==> destroyed == []
      ensures initialized ==> (destroyed ==
        (if hasCurrentSpace then [CurrentSpace] else []) + (if hasHeadSpace then [HeadSpace] else [])
        + (if hasSession then [Session] else []) + (if hasInstance then [Instance] else []))
    {
      destroyed := [];
      if !initialized {
        return;
      }
      if hasCurrentSpace {
        destroyed := destroyed + [CurrentSpace];
      }
      if hasHeadSpace {
        destroyed := destroyed + [HeadSpace];
      }
      if hasSession {
        destroyed := destroyed + [Session];
      }
      if hasInstance {
        destroyed := destroyed + [Instance];
      }
    }
  }

  lemma ModuloOfLayer(q: nat, n: nat, v: nat)
    requires 1 <= n <= 2 && v < n
    ensures (q * n + v) % n == v
  {
    if n == 2 {
      assert q * n + v == 2 * q + v;
    }
  }

  /**
   * The loop over the optional names: each one the runtime lists is recorded
   * as supported and pushed unless it is enabled already.
   */
  method EnableOptional(enabled: seq<string>, supported: set<string>, optional: seq<string>, runtime: seq<string>)
      returns (enabled': seq<string>, supported': set<string>)
    ensures enabled' == AppendMissing(enabled, Supported(optional, runtime))
    ensures supported' == supported + Names(Supported(optional, runtime))
  {
    enabled', supported' := enabled, supported;
    var i := 0;
    assert optional[..0] == [];
    while i < |optional|
      invariant 0 <= i <= |optional|
      invariant AppendMissing(enabled', Supported(optional[i..], runtime)) == AppendMissing(enabled, Supported(optional, runtime))
      invariant supported' == supported + Names(Supported(optional[..i], runtime))
    {
      OptionalStepKeeps(enabled, supported, enabled', supported', optional, i, runtime);
      if optional[i] in runtime {
        supported' := supported' + {optional[i]};
        if optional[i] !in enabled' {
          enabled' := enabled' + [optional[i]];
        }
      }
      i := i + 1;
    }
    assert optional[..|optional|] == optional;
  }

  /** The loop invariant of EnableOptional survives one optional name. */
  lemma OptionalStepKeeps(enabled: seq<string>, supported: set<string>, e: seq<string>, sup: set<string>,
                          optional: seq<string>, i: nat, runtime: seq<string>)
    requires i < |optional|
    requires AppendMissing(e, Supported(optional[i..], runtime)) == AppendMissing(enabled, Supported(optional, runtime))
    requires sup == supported + Names(Supported(optional[..i], runtime))
    ensures var e' := if optional[i] in runtime && optional[i] !in e then e + [optional[i]] else e;
      AppendMissing(e', Supported(optional[i + 1..], runtime)) == AppendMissing(enabled, Supported(optional, runtime))
    ensures var sup' := if optional[i] in runtime then sup + {optional[i]} else sup;
      sup' == supported + Names(Supported(optional[..i + 1], runtime))
  {
    OptionalStep(e, optional, i, runtime);
  }

  /** One optional extension: pushed if supported and not yet enabled, and recorded if supported. */
  lemma OptionalStep(enabled: seq<string>, optional: seq<string>, i: nat, runtime: seq<string>)
    requires i < |optional|
    ensures AppendMissing(enabled, Supported(optional[i..], runtime)) ==
      AppendMissing(if optional[i] in runtime && optional[i] !in enabled then enabled + [optional[i]] else enabled,
        Supported(optional[i + 1..], runtime))
    ensures Names(Supported(optional[..i + 1], runtime)) ==
      Names(Supported(optional[..i], runtime)) + (if optional[i] in runtime then {optional[i]} else {})
  {
    assert optional[i..][1..] == optional[i + 1..];
    assert optional[i..][0] == optional[i];
    var rest := Supported(optional[i + 1..], runtime);
    if optional[i] in runtime {
      var both := [optional[i]] + rest;
      assert Supported(optional[i..], runtime) == both;
      assert both[0] == optional[i] && both[1..] == rest;
    } else {
      assert Supported(optional[i..], runtime) == rest;
    }
    assert optional[..i + 1] == optional[..i] + [optional[i]];
    SupportedAppend(optional[..i], optional[i], runtime);
  }
}
