// What the two OpenXR hosts (shell/openxr/mobile/XrApp.cpp and
// shell/openxr/desktop/XrApp.cpp) have in common: the stereo view
// configuration they look for, the session lifecycle the READY and STOPPING
// events drive (the Session chapter, section 9, of the OpenXR 1.0
// specification), and the records they hand to xrEndFrame (section 10,
// Rendering).

module XrShell {
  import opened IglCore
  import opened XrTypes

  /** kNumViews: stereo. */
  const kNumViews: nat := 2

  /** XR_VIEW_CONFIGURATION_TYPE_PRIMARY_STEREO */
  const PrimaryStereo: nat := 2
  /** XR_REFERENCE_SPACE_TYPE_STAGE */
  const ReferenceSpaceStage: nat := 3

  /** A view's recommended image rectangle. */
  datatype Viewport = Viewport(width: nat, height: nat)

  /** A view configuration the runtime enumerates, with its views. */
  datatype ViewConfiguration = ViewConfiguration(configType: nat, views: seq<Viewport>)

  /** The first primary-stereo configuration at or after `from`. */
  function FirstStereo(configs: seq<ViewConfiguration>, from: nat): (r: Option<nat>)
    requires from <= |configs|
    ensures r.Some? ==> from <= r.value < |configs| && configs[r.value].configType == PrimaryStereo
    ensures r.Some? ==> forall k :: from <= k < r.value ==> configs[k].configType != PrimaryStereo
    ensures r.None? ==> forall k :: from <= k < |configs| ==> configs[k].configType != PrimaryStereo
    decreases |configs| - from
  {
    if from == |configs| then None
    else if configs[from].configType == PrimaryStereo then Some(from)
    else FirstStereo(configs, from + 1)
  }

  /**
   * enumerateViewConfigurations fails only when the first stereo
   * configuration does not have two views; no stereo configuration at all
   * passes (the release build ignores the assertion).
   */
  predicate ViewConfigurationOk(configs: seq<ViewConfiguration>) {
    var first := FirstStereo(configs, 0);
    first.None? || |configs[first.value].views| == kNumViews
  }

  /** handleSessionStateChanges' effect on sessionActive_. */
  function StateChange(active: bool, state: SessionState, begin: XrResult): (r: bool)
    ensures state == StateReady ==> (r <==> begin == XrSuccess)
    ensures state == StateStopping ==> !r
    ensures state != StateReady && state != StateStopping ==> r == active
  {
    if state == StateReady then begin == XrSuccess
    else if state == StateStopping then false
    else active
  }

  predicate IsLifecycleEvent(e: XrEvent) {
    e.SessionStateChanged? && (e.state == StateReady || e.state == StateStopping)
  }

  /** One polled event: only READY and STOPPING state changes reach the handler. */
  function EventEffect(active: bool, e: XrEvent, begin: XrResult): bool {
    if IsLifecycleEvent(e) then StateChange(active, e.state, begin) else active
  }

  /** sessionActive_ after the events, each READY paired with its xrBeginSession result. */
  function ActiveAfter(active: bool, events: seq<XrEvent>, begins: seq<XrResult>): bool
    requires |begins| == |events|
    decreases |events|
  {
    if events == [] then active
    else ActiveAfter(EventEffect(active, events[0], begins[0]), events[1..], begins[1..])
  }

  /** The index of the last READY or STOPPING event, if any. */
  function LastLifecycle(events: seq<XrEvent>): (r: Option<nat>)
    ensures r.Some? ==> r.value < |events| && IsLifecycleEvent(events[r.value])
    ensures r.Some? ==> forall k :: r.value < k < |events| ==> !IsLifecycleEvent(events[k])
    ensures r.None? ==> forall k :: 0 <= k < |events| ==> !IsLifecycleEvent(events[k])
    decreases |events|
  {
    if events == [] then None
    else if IsLifecycleEvent(events[|events| - 1]) then Some(|events| - 1)
    else LastLifecycle(events[..|events| - 1])
  }

  lemma {:induction false} ActiveAfterAppend(active: bool, events: seq<XrEvent>, begins: seq<XrResult>, e: XrEvent, b: XrResult)
    requires |begins| == |events|
    ensures ActiveAfter(active, events + [e], begins + [b]) == EventEffect(ActiveAfter(active, events, begins), e, b)
    decreases |events|
  {
    if events != [] {
      assert (events + [e])[1..] == events[1..] + [e];
      assert (begins + [b])[1..] == begins[1..] + [b];
      ActiveAfterAppend(EventEffect(active, events[0], begins[0]), events[1..], begins[1..], e, b);
    }
  }

  /**
   * After polling, the session is active exactly when the last READY or
   * STOPPING event was a READY whose xrBeginSession succeeded; with no such
   * event, the flag is as before.
   */
  lemma {:induction false} ActiveAfterIsLastLifecycle(active: bool, events: seq<XrEvent>, begins: seq<XrResult>)
    requires |begins| == |events|
    ensures LastLifecycle(events).None? ==> ActiveAfter(active, events, begins) == active
    ensures LastLifecycle(events).Some? ==>
      (ActiveAfter(active, events, begins) <==>
        events[LastLifecycle(events).value].state == StateReady && begins[LastLifecycle(events).value] == XrSuccess)
    decreases |events|
  {
    if events != [] {
      var n := |events| - 1;
      assert events == events[..n] + [events[n]];
      assert begins == begins[..n] + [begins[n]];
      ActiveAfterAppend(active, events[..n], begins[..n], events[n], begins[n]);
      ActiveAfterIsLastLifecycle(active, events[..n], begins[..n]);
    }
  }

  /** A swapchain provider: the image size it was created with and the views per swapchain. */
  datatype ProviderConfig = ProviderConfig(imageWidth: nat, imageHeight: nat, numViews: nat)

  /** One renderSession_->update call: the provider, the view (None: all views), the quad layer set. */
  datatype RenderPass = RenderPass(provider: nat, view: Option<nat>, quadLayer: Option<nat>)

  /** A projection view with the sub-image its colour and depth records share. */
  datatype ProjectionView = ProjectionView(view: nat, imageRect: Rect, swapchainIndex: nat, subImageIndex: nat)

  /** An XrCompositionLayerQuad: whether `next` is the alpha-blend record, its flags, eye, pose, size and sub-image. */
  datatype QuadLayer = QuadLayer(alphaBlendNext: bool, layerFlags: bv64, eye: EyeVisibility, pose: Pose, size: Vec2, subImage: ProjectionView)

  datatype CompositionLayer =
    | PassthroughLayer
    | ProjectionLayer(layerFlags: bv64, viewCount: nat, views: seq<ProjectionView>)
    | QuadCompositionLayer(quad: QuadLayer)

  /** XrFrameEndInfo */
  datatype FrameEndInfo = FrameEndInfo(displayTime: int, environmentBlendMode: EnvironmentBlendMode, layers: seq<CompositionLayer>)

  const Origin := Vec3(0.0, 0.0, 0.0)

  /** The handles the destructor destroys, in order. */
  datatype XrHandleKind = CurrentSpace | HeadSpace | Session | Instance
}
