// The desktop OpenXR host (shell/openxr/desktop/XrApp.cpp, with its state
// declared in shell/openxr/src/XrApp.h): a fail-fast bootstrap that enables
// only the required extensions, one provider per eye (or one for both with
// single-pass stereo), a session lifecycle whose handler also checks the
// resumed flag, one projection layer or two quad layers per frame, and
// controller polling gated by the session flags and the thread it runs on.
//
// The xr* calls are oracles, as in the mobile host: their outcomes are fields
// of the DesktopRuntime value or parameters of the method making the call.

module XrAppDesktop {
  import opened IglCore
  import opened XrTypes
  import opened XrExtensions
  import opened XrShell

  /** The outcomes of the calls initialize makes, in the order it makes them. */
  datatype DesktopRuntime = DesktopRuntime(
    extensionProcResult: XrResult,
    runtimeExtensions: seq<string>,
    implRequiredExtensions: seq<string>,
    createInstanceResult: XrResult,
    getSystemResult: XrResult,
    viewConfigurations: seq<ViewConfiguration>,
    deviceCreated: bool,
    multiviewSupported: bool,
    sessionCreated: bool,
    referenceSpaces: seq<nat>)

  /** Every bootstrap step succeeds, given the required list held before. */
  predicate DesktopBootstrapOk(rt: DesktopRuntime, requiredBefore: seq<string>) {
    && rt.extensionProcResult == XrSuccess
    && AllSupported(requiredBefore + rt.implRequiredExtensions, rt.runtimeExtensions)
    && rt.createInstanceResult == XrSuccess
    && rt.getSystemResult == XrSuccess
    && ViewConfigurationOk(rt.viewConfigurations)
    && rt.deviceCreated
    && rt.sessionCreated
  }

  /** createSwapchainProviders: one provider for both views with single-pass stereo, else one per view. */
  function DesktopProviderCount(sps: bool): nat {
    if sps then 1 else kNumViews
  }

  /** Provider i is created from viewport i. */
  function DesktopProviderAt(sps: bool, viewports: seq<Viewport>, i: nat): ProviderConfig
    requires |viewports| == kNumViews && i < kNumViews
  {
    ProviderConfig(viewports[i].width, viewports[i].height, if sps then kNumViews else 1)
  }

  /** Projection view i of endFrame: single-pass stereo reads sub-image i of provider 0, otherwise provider i. */
  function DesktopProjectionViewAt(sps: bool, viewports: seq<Viewport>, i: nat): ProjectionView
    requires |viewports| == kNumViews && i < kNumViews
  {
    ProjectionView(i, Rect(0, 0, viewports[i].width, viewports[i].height), if sps then 0 else i, if sps then i else 0)
  }

  /** Every projection view names a provider createSwapchainProviders made. */
  lemma DesktopViewsUseTheirProviders(sps: bool, viewports: seq<Viewport>, i: nat)
    requires |viewports| == kNumViews && i < kNumViews
    ensures DesktopProjectionViewAt(sps, viewports, i).swapchainIndex < DesktopProviderCount(sps)
    ensures DesktopProjectionViewAt(sps, viewports, i).subImageIndex < DesktopProviderAt(sps, viewports, DesktopProjectionViewAt(sps, viewports, i).swapchainIndex).numViews
  {
  }

  /** The READY handler asserts resumed and inactive; the STOPPING handler asserts paused and active. */
  predicate DesktopCanHandle(resumed: bool, active: bool, state: SessionState) {
    (state == StateReady ==> resumed && !active) && (state == StateStopping ==> !resumed && active)
  }

  /** Every lifecycle event arrives in a state its handler asserts. */
  predicate DesktopEventsRespectAsserts(resumed: bool, active: bool, events: seq<XrEvent>, begins: seq<XrResult>)
    requires |begins| == |events|
    decreases |events|
  {
    events == [] ||
    ((IsLifecycleEvent(events[0]) ==> DesktopCanHandle(resumed, active, events[0].state))
     && DesktopEventsRespectAsserts(resumed, EventEffect(active, events[0], begins[0]), events[1..], begins[1..]))
  }

  /**
   * With the app resumed, a READY that begins the session, then a STOPPING,
   * violates the STOPPING handler's assertion: the desktop host can only
   * stop a session after being paused.
   */
  lemma StoppingNeedsPause()
    ensures !DesktopEventsRespectAsserts(true, false, [SessionStateChanged(StateReady), SessionStateChanged(StateStopping)], [XrSuccess, XrSuccess])
    ensures DesktopEventsRespectAsserts(true, false, [SessionStateChanged(StateReady)], [XrSuccess])
  {
    var events := [SessionStateChanged(StateReady), SessionStateChanged(StateStopping)];
    assert events[1..] == [SessionStateChanged(StateStopping)];
  }

  /** One controller's inputs for a pollActions call. */
  datatype ControllerInput = ControllerInput(grabActive: bool, grabValue: real, poseActive: bool)

  /** The quit action's state after xrSyncActions. */
  datatype QuitState = QuitState(isActive: bool, changedSinceLastSync: bool, currentState: bool)

  /** The grab value above which the controller vibrates. */
  const HapticThreshold: real := 0.9

  /** The controllers, in order, whose grab is active and above the threshold: they get a haptic pulse. */
  function HapticControllers(inputs: seq<ControllerInput>): seq<nat>
    decreases |inputs|
  {
    if inputs == [] then []
    else
      var n := |inputs| - 1;
      HapticControllers(inputs[..n]) + (if Pulses(inputs[n]) then [n] else [])
  }

  predicate Pulses(input: ControllerInput) {
    input.grabActive && input.grabValue > HapticThreshold
  }

  /** The pulsed controllers are exactly those whose grab is active and above the threshold, each once, in order. */
  lemma {:induction false} HapticControllersSpec(inputs: seq<ControllerInput>)
    ensures var r := HapticControllers(inputs);
      && (forall c :: c in r <==> 0 <= c < |inputs| && Pulses(inputs[c]))
      && (forall k :: 0 <= k < |r| - 1 ==> r[k] < r[k + 1])
      && (forall k :: 0 <= k < |r| ==> r[k] < |inputs|)
    decreases |inputs|
  {
    if inputs != [] {
      var n := |inputs| - 1;
      HapticControllersSpec(inputs[..n]);
      var r := HapticControllers(inputs);
      var p := HapticControllers(inputs[..n]);
      assert forall c :: 0 <= c < n ==> inputs[..n][c] == inputs[c];
      assert r == p + (if Pulses(inputs[n]) then [n] else []);
    }
  }

  /**
   * The controller loop of pollActions: both hands start inactive; each
   * controller with an active grab scales its hand and, above the threshold,
   * vibrates; each hand then takes its pose action's activity.
   */
  method PollControllers(inputs: seq<ControllerInput>, handScale: seq<real>) returns (active: seq<bool>, scale: seq<real>, haptics: seq<nat>)
    requires |inputs| == NUM_SIDES && |handScale| == NUM_SIDES
    ensures |active| == NUM_SIDES && |scale| == NUM_SIDES
    ensures haptics == HapticControllers(inputs)
    ensures forall c :: 0 <= c < NUM_SIDES ==> active[c] == inputs[c].poseActive
    ensures forall c :: 0 <= c < NUM_SIDES ==>
      scale[c] == (if inputs[c].grabActive then 1.0 - 0.5 * inputs[c].grabValue else handScale[c])
  {
    active := [false, false];
    scale := handScale;
    haptics := [];
    var c := 0;
    while c < NUM_SIDES
      invariant 0 <= c <= NUM_SIDES && |active| == NUM_SIDES && |scale| == NUM_SIDES
      invariant haptics == HapticControllers(inputs[..c])
      invariant forall k :: 0 <= k < c ==> active[k] == inputs[k].poseActive
      invariant forall k :: c <= k < NUM_SIDES ==> !active[k]
      invariant forall k :: 0 <= k < NUM_SIDES ==>
        scale[k] == (if k < c && inputs[k].grabActive then 1.0 - 0.5 * inputs[k].grabValue else handScale[k])
    {
      assert inputs[..c + 1][..c] == inputs[..c];
      if inputs[c].grabActive {
        scale := scale[c := 1.0 - 0.5 * inputs[c].grabValue];
        if inputs[c].grabValue > HapticThreshold {
          haptics := haptics + [c];
        }
      }
      active := active[c := inputs[c].poseActive];
      c := c + 1;
    }
    assert inputs[..NUM_SIDES] == inputs;
  }

  /** What pollActions did: whether it synced the actions, the controllers it vibrated, whether it asked to exit. */
  datatype PollResult = PollResult(synced: bool, haptics: seq<nat>, exitRequested: bool)

  const NoPoll := PollResult(false, [], false)

  /** The desktop host's state. */
  class DesktopXrApp {
    var initialized: bool
    var resumed: bool
    var sessionActive: bool
    var enableMainThreadPolling: bool
    var enableAsyncPolling: bool
    var useSinglePassStereo: bool
    var useQuadLayerComposition: bool
    var requiredExtensions: seq<string>
    var instanceExtensions: seq<string>
    var hasInstance: bool
    var hasSystem: bool
    var hasSession: bool
    var hasHeadSpace: bool
    var hasCurrentSpace: bool
    var hasRenderSession: bool
    var hasActions: bool
    var stageSpaceSupported: bool
    var additiveBlendingSupported: bool
    var viewports: seq<Viewport>
    var swapchainProviders: seq<ProviderConfig>
    var handActive: seq<bool>
    var handScale: seq<real>
    var useMaxRefreshRate: bool
    var desiredSpecificRefreshRate: real
    var currentRefreshRate: real
    var compositionLayerSettingsSupported: bool
    var compositionLayerFlags: bv64
    var enableSharpeningAtStartup: bool

    ghost predicate Valid()
      reads this
    {
      |viewports| == kNumViews && |handActive| == NUM_SIDES && |handScale| == NUM_SIDES
    }

    /**
     * The member initialisers of the header and the constructor; quad
     * composition when the build defines USE_COMPOSITION_LAYER_QUAD.
     */
    constructor (useCompositionLayerQuad: bool)
      ensures Valid()
      ensures !initialized && !resumed && !sessionActive
      ensures enableMainThreadPolling && !enableAsyncPolling
      ensures !useSinglePassStereo && useQuadLayerComposition == useCompositionLayerQuad
      ensures requiredExtensions == [] && instanceExtensions == []
      ensures !hasInstance && !hasSystem && !hasSession && !hasHeadSpace && !hasCurrentSpace && !hasRenderSession && !hasActions
      ensures !stageSpaceSupported && !additiveBlendingSupported
      ensures viewports == [Viewport(0, 0), Viewport(0, 0)] && swapchainProviders == []
      ensures handScale == [1.0, 1.0]
      ensures !useMaxRefreshRate && desiredSpecificRefreshRate == 90.0 && currentRefreshRate == 0.0
      ensures !compositionLayerSettingsSupported && compositionLayerFlags == 0 && !enableSharpeningAtStartup
    {
      initialized, resumed, sessionActive := false, false, false;
      enableMainThreadPolling, enableAsyncPolling := true, false;
      useSinglePassStereo, useQuadLayerComposition := false, useCompositionLayerQuad;
      requiredExtensions, instanceExtensions := [], [];
      hasInstance, hasSystem, hasSession, hasHeadSpace, hasCurrentSpace := false, false, false, false, false;
      hasRenderSession, hasActions := false, false;
      stageSpaceSupported, additiveBlendingSupported := false, false;
      viewports := [Viewport(0, 0), Viewport(0, 0)];
      swapchainProviders := [];
      handActive, handScale := [false, false], [1.0, 1.0];
      useMaxRefreshRate, desiredSpecificRefreshRate, currentRefreshRate := false, 90.0, 0.0;
      compositionLayerSettingsSupported, compositionLayerFlags, enableSharpeningAtStartup := false, 0, false;
    }

    function Initialized(): bool reads this { initialized }
    function Resumed(): bool reads this { resumed }
    function SessionActive(): bool reads this { sessionActive }

    method SetResumed(r: bool)
      modifies this`resumed
      ensures resumed == r && Resumed() == r
    {
      resumed := r;
    }

    /**
     * checkExtensions: fails if the enumeration function cannot be found;
     * otherwise appends the implementation's required extensions to the
     * required list and succeeds iff the runtime lists every one of them.
     */
    method CheckExtensions(procResult: XrResult, runtime: seq<string>, implRequired: seq<string>) returns (ok: bool)
      modifies this`requiredExtensions
      ensures procResult != XrSuccess ==> !ok && requiredExtensions == old(requiredExtensions)
      ensures procResult == XrSuccess ==> requiredExtensions == old(requiredExtensions) + implRequired
      ensures ok <==> procResult == XrSuccess && AllSupported(old(requiredExtensions) + implRequired, runtime)
    {
      if procResult != XrSuccess {
        return false;
      }
      requiredExtensions := requiredExtensions + implRequired;
      ok := CheckRequired(requiredExtensions, runtime);
    }

    /** createInstance: the instance enables exactly the required list. */
    method CreateInstance(result: XrResult) returns (ok: bool)
      modifies this`hasInstance, this`instanceExtensions
      ensures ok <==> result == XrSuccess
      ensures ok ==> hasInstance && instanceExtensions == requiredExtensions
      ensures !ok ==> hasInstance == old(hasInstance) && instanceExtensions == old(instanceExtensions)
    {
      if result != XrSuccess {
        return false;
      }
      hasInstance, instanceExtensions := true, requiredExtensions;
      return true;
    }

    /** enumerateViewConfigurations: as in the mobile host. */
    method EnumerateViewConfigurations(configs: seq<ViewConfiguration>) returns (ok: bool)
      requires Valid()
      modifies this`viewports
      ensures Valid()
      ensures ok <==> ViewConfigurationOk(configs)
      ensures ok && FirstStereo(configs, 0).Some? ==> viewports == configs[FirstStereo(configs, 0).value].views
      ensures FirstStereo(configs, 0).None? ==> viewports == old(viewports)
    {
      var i := 0;
      while i < |configs|
        invariant 0 <= i <= |configs|
        invariant FirstStereo(configs, 0) == FirstStereo(configs, i)
        invariant viewports == old(viewports)
      {
        if configs[i].configType != PrimaryStereo {
          i := i + 1;
          continue;
        }
        if |configs[i].views| != kNumViews {
          return false;
        }
        viewports := configs[i].views;
        return true;
      }
      return true;
    }

    /** createSwapchainProviders: appends one provider, or one per view, each from its viewport. */
    method CreateSwapchainProviders()
      requires Valid()
      modifies this`swapchainProviders
      ensures |swapchainProviders| == |old(swapchainProviders)| + DesktopProviderCount(useSinglePassStereo)
      ensures swapchainProviders[..|old(swapchainProviders)|] == old(swapchainProviders)
      ensures forall i :: 0 <= i < DesktopProviderCount(useSinglePassStereo) ==>
        swapchainProviders[|old(swapchainProviders)| + i] == DesktopProviderAt(useSinglePassStereo, viewports, i)
    {
      var count := DesktopProviderCount(useSinglePassStereo);
      var numViewsPerSwapchain := if useSinglePassStereo then kNumViews else 1;
      var i := 0;
      while i < count
        invariant 0 <= i <= count
        invariant |swapchainProviders| == |old(swapchainProviders)| + i
        invariant swapchainProviders[..|old(swapchainProviders)|] == old(swapchainProviders)
        invariant forall j :: 0 <= j < i ==> swapchainProviders[|old(swapchainProviders)| + j] == DesktopProviderAt(useSinglePassStereo, viewports, j)
      {
        swapchainProviders := swapchainProviders + [ProviderConfig(viewports[i].width, viewports[i].height, numViewsPerSwapchain)];
        i := i + 1;
      }
    }

    /**
     * initialize: refused when already initialized; then every step in
     * order, stopping at the first failure; the steps after the session
     * cannot fail, and initialized_ is set last.
     */
    method Initialize(rt: DesktopRuntime) returns (ok: bool)
      requires Valid()
      modifies this`requiredExtensions, this`instanceExtensions, this`hasInstance, this`hasSystem, this`viewports
      modifies this`useSinglePassStereo, this`hasRenderSession, this`hasSession, this`stageSpaceSupported
      modifies this`swapchainProviders, this`hasHeadSpace, this`hasCurrentSpace, this`hasActions, this`initialized
      ensures Valid()
      ensures ok <==> !old(initialized) && DesktopBootstrapOk(rt, old(requiredExtensions))
      ensures old(initialized) ==> initialized && requiredExtensions == old(requiredExtensions) && hasSession == old(hasSession)
      ensures !old(initialized) ==> initialized == ok
      ensures ok ==> instanceExtensions == old(requiredExtensions) + rt.implRequiredExtensions
      ensures ok ==> hasInstance && hasSystem && hasSession && hasRenderSession && hasHeadSpace && hasCurrentSpace && hasActions
      ensures ok ==> useSinglePassStereo == (old(useSinglePassStereo) && rt.multiviewSupported)
      ensures ok ==> stageSpaceSupported == (ReferenceSpaceStage in rt.referenceSpaces)
      ensures ok ==> |swapchainProviders| == |old(swapchainProviders)| + DesktopProviderCount(useSinglePassStereo)
      ensures ok ==> swapchainProviders[..|old(swapchainProviders)|] == old(swapchainProviders)
      ensures ok ==> forall i :: 0 <= i < DesktopProviderCount(useSinglePassStereo) ==>
        swapchainProviders[|old(swapchainProviders)| + i] == DesktopProviderAt(useSinglePassStereo, viewports, i)
    {
      if initialized {
        return false;
      }
      ok := CreateSession(rt);
      if !ok {
        return false;
      }
      CreateSessionResources(rt);
    }

    /** The steps of initialize after the session, none of which can fail; initialized_ is set last. */
    method CreateSessionResources(rt: DesktopRuntime)
      requires Valid()
      modifies this`stageSpaceSupported, this`swapchainProviders, this`hasHeadSpace, this`hasCurrentSpace
      modifies this`hasActions, this`initialized
      ensures stageSpaceSupported == (ReferenceSpaceStage in rt.referenceSpaces)
      ensures |swapchainProviders| == |old(swapchainProviders)| + DesktopProviderCount(useSinglePassStereo)
      ensures swapchainProviders[..|old(swapchainProviders)|] == old(swapchainProviders)
      ensures forall i :: 0 <= i < DesktopProviderCount(useSinglePassStereo) ==>
        swapchainProviders[|old(swapchainProviders)| + i] == DesktopProviderAt(useSinglePassStereo, viewports, i)
      ensures hasHeadSpace && hasCurrentSpace && hasActions && initialized
    {
      stageSpaceSupported := ReferenceSpaceStage in rt.referenceSpaces;
      CreateSwapchainProviders();
      hasHeadSpace, hasCurrentSpace := true, true;
      hasActions := true;
      initialized := true;
    }

    /** The steps of initialize up to the session. */
    method CreateSession(rt: DesktopRuntime) returns (ok: bool)
      requires Valid()
      modifies this`requiredExtensions, this`instanceExtensions, this`hasInstance, this`hasSystem, this`viewports
      modifies this`useSinglePassStereo, this`hasRenderSession, this`hasSession
      ensures Valid()
      ensures ok <==> DesktopBootstrapOk(rt, old(requiredExtensions))
      ensures ok ==> instanceExtensions == old(requiredExtensions) + rt.implRequiredExtensions
      ensures ok ==> hasInstance && hasSystem && hasSession && hasRenderSession
      ensures ok ==> useSinglePassStereo == (old(useSinglePassStereo) && rt.multiviewSupported)
    {
      ok := CheckExtensions(rt.extensionProcResult, rt.runtimeExtensions, rt.implRequiredExtensions);
      if !ok {
        return false;
      }
      ok := CreateInstance(rt.createInstanceResult);
      if !ok {
        return false;
      }
      if rt.getSystemResult != XrSuccess {
        return false;
      }
      hasSystem := true;
      ok := EnumerateViewConfigurations(rt.viewConfigurations);
      if !ok {
        return false;
      }
      if !rt.deviceCreated {
        return false;
      }
      useSinglePassStereo := useSinglePassStereo && rt.multiviewSupported;
      hasRenderSession := true;
      if !rt.sessionCreated {
        return false;
      }
      hasSession := true;
    }

    /**
     * handleSessionStateChanges: READY begins the session, which is active
     * iff xrBeginSession succeeded; STOPPING ends it.
     */
    method HandleSessionStateChanges(state: SessionState, beginResult: XrResult)
      requires DesktopCanHandle(resumed, sessionActive, state)
      modifies this`sessionActive
      ensures sessionActive == StateChange(old(sessionActive), state, beginResult)
    {
      if state == StateReady {
        sessionActive := beginResult == XrSuccess;
      } else if state == StateStopping {
        sessionActive := false;
      }
    }

    /** handleXrEvents: the polled events in order; only READY and STOPPING reach the handler. */
    method HandleXrEvents(events: seq<XrEvent>, beginResults: seq<XrResult>)
      requires |beginResults| == |events|
      requires DesktopEventsRespectAsserts(resumed, sessionActive, events, beginResults)
      modifies this`sessionActive
      ensures sessionActive == ActiveAfter(old(sessionActive), events, beginResults)
    {
      var i := 0;
      while i < |events|
        invariant 0 <= i <= |events|
        invariant DesktopEventsRespectAsserts(resumed, sessionActive, events[i..], beginResults[i..])
        invariant ActiveAfter(sessionActive, events[i..], beginResults[i..]) == ActiveAfter(old(sessionActive), events, beginResults)
      {
        assert events[i..][1..] == events[i + 1..];
        assert beginResults[i..][1..] == beginResults[i + 1..];
        var e := events[i];
        if e.SessionStateChanged? {
          if e.state == StateReady || e.state == StateStopping {
            HandleSessionStateChanges(e.state, beginResults[i]);
          }
        }
        i := i + 1;
      }
    }

    /** render: provider 0 for all views with single-pass stereo, otherwise provider i for view i. */
    method Render() returns (passes: seq<RenderPass>)
      ensures useSinglePassStereo ==> passes == [RenderPass(0, None, None)]
      ensures !useSinglePassStereo ==> (|passes| == kNumViews &&
        forall i :: 0 <= i < kNumViews ==> passes[i] == RenderPass(i, Some(i), None))
    {
      if useSinglePassStereo {
        return [RenderPass(0, None, None)];
      }
      passes := [];
      var i := 0;
      while i < kNumViews
        invariant 0 <= i <= kNumViews && |passes| == i
        invariant forall j :: 0 <= j < i ==> passes[j] == RenderPass(j, Some(j), None)
      {
        passes := passes + [RenderPass(i, Some(i), None)];
        i := i + 1;
      }
    }

    /**
     * The layers endFrame submits: two quad layers, left then right, with
     * source alpha, the identity pose at the origin, the app's size and the
     * sub-image of their eye's projection view; or one projection layer with
     * chromatic-aberration correction over both views.
     */
    predicate DesktopFrameLayers(layers: seq<CompositionLayer>, appSize: Vec2)
      reads this
    {
      && |viewports| == kNumViews
      && (useQuadLayerComposition ==> (|layers| == kNumViews &&
        forall i :: 0 <= i < kNumViews ==> layers[i] == QuadCompositionLayer(QuadLayer(false,
          XR_COMPOSITION_LAYER_BLEND_TEXTURE_SOURCE_ALPHA_BIT, if i == 0 then EyeLeft else EyeRight,
          Pose(IdentityOrientation, Origin), appSize, DesktopProjectionViewAt(useSinglePassStereo, viewports, i)))))
      && (!useQuadLayerComposition ==> layers == [ProjectionLayer(XR_COMPOSITION_LAYER_CORRECT_CHROMATIC_ABERRATION_BIT,
        kNumViews, [DesktopProjectionViewAt(useSinglePassStereo, viewports, 0), DesktopProjectionViewAt(useSinglePassStereo, viewports, 1)])])
    }

    /**
     * endFrame: two quad layers, left then right, with source alpha, the
     * identity pose at the origin, the app's size and the sub-image of the
     * projection view of their eye; or one projection layer with
     * chromatic-aberration correction over both views.
     */
    method EndFrame(predictedDisplayTime: int, appSize: Vec2) returns (info: FrameEndInfo)
      requires Valid()
      ensures info.displayTime == predictedDisplayTime
      ensures info.environmentBlendMode == (if additiveBlendingSupported then EnvAdditive else EnvOpaque)
      ensures DesktopFrameLayers(info.layers, appSize)
    {
      var projectionViews: seq<ProjectionView> := [];
      var i := 0;
      while i < kNumViews
        invariant 0 <= i <= kNumViews && |projectionViews| == i
        invariant forall j :: 0 <= j < i ==> projectionViews[j] == DesktopProjectionViewAt(useSinglePassStereo, viewports, j)
      {
        var imageRect := Rect(0, 0, viewports[i].width, viewports[i].height);
        var index := if useSinglePassStereo then i else 0;
        projectionViews := projectionViews + [ProjectionView(i, imageRect, if useSinglePassStereo then 0 else i, index)];
        i := i + 1;
      }
      var blend := if additiveBlendingSupported then EnvAdditive else EnvOpaque;
      if useQuadLayerComposition {
        var layers: seq<CompositionLayer> := [];
        var eye := EyeLeft;
        i := 0;
        while i < kNumViews
          invariant 0 <= i <= kNumViews && |layers| == i
          invariant eye == (if i == 0 then EyeLeft else EyeRight)
          invariant forall j :: 0 <= j < i ==> layers[j] == QuadCompositionLayer(QuadLayer(false,
            XR_COMPOSITION_LAYER_BLEND_TEXTURE_SOURCE_ALPHA_BIT, if j == 0 then EyeLeft else EyeRight,
            Pose(IdentityOrientation, Origin), appSize, projectionViews[j]))
        {
          layers := layers + [QuadCompositionLayer(QuadLayer(false, XR_COMPOSITION_LAYER_BLEND_TEXTURE_SOURCE_ALPHA_BIT, eye,
            Pose(IdentityOrientation, Origin), appSize, projectionViews[i]))];
          if eye == EyeLeft {
            eye := EyeRight;
          }
          i := i + 1;
        }
        info := FrameEndInfo(predictedDisplayTime, blend, layers);
      } else {
        assert projectionViews == [projectionViews[0], projectionViews[1]];
        info := FrameEndInfo(predictedDisplayTime, blend,
          [ProjectionLayer(XR_COMPOSITION_LAYER_CORRECT_CHROMATIC_ABERRATION_BIT, kNumViews, projectionViews)]);
      }
    }

    /** The flags under which pollActions acts at all. */
    predicate PollGateOpen(mainThread: bool)
      reads this
    {
      initialized && resumed && sessionActive && (if mainThread then enableMainThreadPolling else enableAsyncPolling)
    }

    /**
     * pollActions: nothing unless initialized, resumed and active and the
     * calling thread's polling is enabled; otherwise both hands are marked
     * inactive, then each controller scales its hand by its grab, vibrates
     * above the threshold and takes its pose action's activity, and an exit
     * is requested iff the quit action is active, changed and pressed.
     */
    method PollActions(mainThread: bool, inputs: seq<ControllerInput>, quit: QuitState) returns (result: PollResult)
      requires Valid() && |inputs| == NUM_SIDES
      modifies this`handActive, this`handScale
      ensures Valid()
      ensures !old(PollGateOpen(mainThread)) ==>
        result == NoPoll && handActive == old(handActive) && handScale == old(handScale)
      ensures old(PollGateOpen(mainThread)) ==>
        && result.synced
        && result.haptics == HapticControllers(inputs)
        && (result.exitRequested <==> quit.isActive && quit.changedSinceLastSync && quit.currentState)
        && (forall c :: 0 <= c < NUM_SIDES ==> handActive[c] == inputs[c].poseActive)
        && (forall c :: 0 <= c < NUM_SIDES ==>
              handScale[c] == (if inputs[c].grabActive then 1.0 - 0.5 * inputs[c].grabValue else old(handScale)[c]))
    {
      if !initialized || !resumed || !sessionActive {
        return NoPoll;
      }
      if mainThread && !enableMainThreadPolling {
        return NoPoll;
      } else if !mainThread && !enableAsyncPolling {
        return NoPoll;
      }
      var active, scale, haptics := PollControllers(inputs, handScale);
      handActive, handScale := active, scale;
      var exit := quit.isActive && quit.changedSinceLastSync && quit.currentState;
      return PollResult(true, haptics, exit);
    }

    /**
     * update: nothing unless initialized, resumed and active; otherwise
     * beginFrame, pollActions on the main thread, render and endFrame.
     */
    method Update(predictedDisplayTime: int, appSize: Vec2, inputs: seq<ControllerInput>, quit: QuitState)
      returns (poll: PollResult, passes: seq<RenderPass>, frame: Option<FrameEndInfo>)
      requires Valid() && |inputs| == NUM_SIDES
      modifies this`handActive, this`handScale
      ensures Valid()
      ensures !(initialized && resumed && sessionActive) ==>
        poll == NoPoll && passes == [] && frame == None && handActive == old(handActive) && handScale == old(handScale)
      ensures initialized && resumed && sessionActive ==>
        && (poll.synced <==> enableMainThreadPolling)
        && (!enableMainThreadPolling ==> poll == NoPoll && handActive == old(handActive) && handScale == old(handScale))
        && (enableMainThreadPolling ==>
          && poll.haptics == HapticControllers(inputs)
          && (poll.exitRequested <==> quit.isActive && quit.changedSinceLastSync && quit.currentState)
          && (forall c :: 0 <= c < NUM_SIDES ==> handActive[c] == inputs[c].poseActive)
          && (forall c :: 0 <= c < NUM_SIDES ==>
                handScale[c] == (if inputs[c].grabActive then 1.0 - 0.5 * inputs[c].grabValue else old(handScale)[c])))
        && |passes| == DesktopProviderCount(useSinglePassStereo)
        && (useSinglePassStereo ==> passes == [RenderPass(0, None, None)])
        && (!useSinglePassStereo ==> forall i :: 0 <= i < kNumViews ==> passes[i] == RenderPass(i, Some(i), None))
        && frame.Some? && frame.value.displayTime == predictedDisplayTime
        && frame.value.environmentBlendMode == (if additiveBlendingSupported then EnvAdditive else EnvOpaque)
        && DesktopFrameLayers(frame.value.layers, appSize)
    {
      if !initialized || !resumed || !sessionActive {
        return NoPoll, [], None;
      }
      poll := PollActions(true, inputs, quit);
      passes := Render();
      var info := EndFrame(predictedDisplayTime, appSize);
      frame := Some(info);
    }

    /** The destructor: nothing before initialization; afterwards the providers go and the four handles are destroyed. */
    method Teardown() returns (destroyed: seq<XrHandleKind>)
      modifies this`swapchainProviders
      ensures !initialized ==> destroyed == [] && swapchainProviders == old(swapchainProviders)
      ensures initialized ==> destroyed == [CurrentSpace, HeadSpace, Session, Instance] && swapchainProviders == []
    {
      if !initialized {
        return [];
      }
      swapchainProviders := [];
      destroyed := [CurrentSpace, HeadSpace, Session, Instance];
    }
  }

  /** LEFT, RIGHT: the two controllers. */
  const NUM_SIDES: nat := 2
}
