// The renderer registry behind the Android sample's JNI entry points
// (shell/android/jni/Jni.cpp): one TinyRenderer per backend version, an
// active version, and entry points that dispatch to the renderer of the
// active version. Java objects arrive already converted (a null backend
// version is None); the TinyRenderer calls are recorded in order.

module JniRegistry {
  import opened IglCore

  datatype BackendFlavor = Invalid | OpenGL | OpenGL_ES | Metal | Vulkan

  /** igl::BackendVersion; the version numbers are uint8_t. */
  datatype BackendVersion = BackendVersion(flavor: BackendFlavor, majorVersion: nat, minorVersion: nat)

  /** The calls the entry points make on a renderer, identified by its index. */
  datatype RendererCall =
    | InitRenderer(index: nat, version: BackendVersion, hasWindow: bool)
    | RecreateSwapchain(index: nat)
    | Render(index: nat)
    | TouchEvent(index: nat)
    | SurfacesChanged(index: nat, width: int, height: int)
    | SetClearColorValue(index: nat)

  /** The entry points that forward to the active renderer. */
  datatype DispatchKind = RenderFrame | Touch | SurfaceChanged(width: int, height: int) | ClearColor

  function CallFor(kind: DispatchKind, index: nat): RendererCall {
    match kind
    case RenderFrame => Render(index)
    case Touch => TouchEvent(index)
    case SurfaceChanged(w, h) => SurfacesChanged(index, w, h)
    case ClearColor => SetClearColorValue(index)
  }

  /** No two renderers serve the same backend version. */
  ghost predicate Unique(renderers: seq<BackendVersion>) {
    forall i, j :: 0 <= i < j < |renderers| ==> renderers[i] != renderers[j]
  }

  /** The globals `renderers` (by the backend version of each) and `activeBackendVersion`. */
  class SampleLib {
    var renderers: seq<BackendVersion>
    var activeBackendVersion: Option<BackendVersion>
    var calls: seq<RendererCall>

    ghost predicate Valid()
      reads this
    {
      Unique(renderers)
    }

    constructor ()
      ensures Valid() && renderers == [] && activeBackendVersion == None && calls == []
    {
      renderers := [];
      activeBackendVersion := None;
      calls := [];
    }

    /**
     * findRendererIndex: none for an absent version; otherwise the first
     * index whose renderer has that version, or none if there is none.
     */
    method FindRendererIndex(backendVersion: Option<BackendVersion>) returns (index: Option<nat>)
      ensures backendVersion.None? ==> index.None?
      ensures index.Some? ==>
        && index.value < |renderers|
        && renderers[index.value] == backendVersion.value
        && forall j :: 0 <= j < index.value ==> renderers[j] != backendVersion.value
      ensures index.None? && backendVersion.Some? ==> backendVersion.value !in renderers
    {
      if backendVersion.None? {
        return None;
      }
      var i := 0;
      while i < |renderers|
        invariant 0 <= i <= |renderers|
        invariant forall j :: 0 <= j < i ==> renderers[j] != backendVersion.value
      {
        if renderers[i] == backendVersion.value {
          return Some(i);
        }
        i := i + 1;
      }
      return None;
    }

    /**
     * init: a present, unregistered version gets a new renderer; a registered
     * Vulkan version gets its swapchain recreated; nothing else changes. The
     * version becomes the active one in every case.
     */
    method Init(backendVersion: Option<BackendVersion>, hasSurface: bool)
      requires Valid()
      modifies this
      ensures Valid()
      ensures activeBackendVersion == backendVersion
      ensures backendVersion.Some? && backendVersion.value !in old(renderers) ==>
        && renderers == old(renderers) + [backendVersion.value]
        && calls == old(calls) + [InitRenderer(|old(renderers)|, backendVersion.value, hasSurface)]
      ensures backendVersion.Some? && backendVersion.value in old(renderers) && backendVersion.value.flavor == Vulkan ==>
        && renderers == old(renderers)
        && exists i :: 0 <= i < |renderers| && renderers[i] == backendVersion.value
                       && calls == old(calls) + [RecreateSwapchain(i)]
      ensures (backendVersion.None? || (backendVersion.value in old(renderers) && backendVersion.value.flavor != Vulkan)) ==>
        renderers == old(renderers) && calls == old(calls)
    {
      var rendererIndex := FindRendererIndex(backendVersion);
      if backendVersion.Some? && rendererIndex.None? {
        calls := calls + [InitRenderer(|renderers|, backendVersion.value, hasSurface)];
        renderers := renderers + [backendVersion.value];
      } else if rendererIndex.Some? && backendVersion.Some? && backendVersion.value.flavor == Vulkan {
        calls := calls + [RecreateSwapchain(rendererIndex.value)];
      }
      activeBackendVersion := backendVersion;
    }

    /** setActiveBackendVersion: replaces the active version and nothing else. */
    method SetActiveBackendVersion(backendVersion: Option<BackendVersion>)
      modifies this
      ensures activeBackendVersion == backendVersion
      ensures renderers == old(renderers) && calls == old(calls)
    {
      activeBackendVersion := backendVersion;
    }

    /**
     * render, touchEvent, surfaceChanged and setClearColorValue: forwarded to
     * the renderer of the active version, or dropped when there is none.
     */
    method Dispatch(kind: DispatchKind) returns (target: Option<nat>)
      modifies this
      ensures renderers == old(renderers) && activeBackendVersion == old(activeBackendVersion)
      ensures target.None? <==> activeBackendVersion.None? || activeBackendVersion.value !in renderers
      ensures target.None? ==> calls == old(calls)
      ensures target.Some? ==>
        && target.value < |renderers| && renderers[target.value] == activeBackendVersion.value
        && calls == old(calls) + [CallFor(kind, target.value)]
    {
      target := FindRendererIndex(activeBackendVersion);
      if target.None? {
        return;
      }
      calls := calls + [CallFor(kind, target.value)];
    }
  }

  /** isBackendVersionSupported, for the backends compiled in. */
  function IsBackendVersionSupported(backendVersion: Option<BackendVersion>, openglBackend: bool, vulkanBackend: bool): (r: bool)
    ensures r ==> backendVersion.Some?
    ensures r <==> (backendVersion.Some? &&
      ((openglBackend && backendVersion.value.flavor == OpenGL_ES) || (vulkanBackend && backendVersion.value.flavor == Vulkan)))
  {
    if openglBackend && backendVersion.Some? && backendVersion.value.flavor == OpenGL_ES then true
    else if vulkanBackend && backendVersion.Some? && backendVersion.value.flavor == Vulkan then true
    else false
  }

  // ---------------------------------------------------------------------
  // toString
  // ---------------------------------------------------------------------

  predicate IsDigit(c: char) { '0' <= c <= '9' }

  /** std::to_string of a non-negative integer. */
  function DecimalString(n: nat): (s: string)
    ensures |s| > 0
    ensures forall i :: 0 <= i < |s| ==> IsDigit(s[i])
    ensures n > 0 ==> s[0] != '0'
  {
    if n < 10 then [DigitChar(n)] else DecimalString(n / 10) + [DigitChar(n % 10)]
  }

  function DigitChar(d: nat): (c: char)
    requires d < 10
    ensures IsDigit(c)
    ensures d > 0 ==> c != '0'
  {
    (('0' as int) + d) as char
  }

  function ParseDecimal(s: string): nat
    requires forall i :: 0 <= i < |s| ==> IsDigit(s[i])
  {
    if s == [] then 0 else 10 * ParseDecimal(s[..|s| - 1]) + DigitValue(s[|s| - 1])
  }

  function DigitValue(c: char): (d: nat)
    requires IsDigit(c)
    ensures d < 10
  {
    (c as int) - ('0' as int)
  }

  /** The decimal text reads back as the number it was made from. */
  lemma {:induction false} DecimalRoundTrip(n: nat)
    ensures ParseDecimal(DecimalString(n)) == n
  {
    var s := DecimalString(n);
    if n >= 10 {
      assert s[..|s| - 1] == DecimalString(n / 10);
      DecimalRoundTrip(n / 10);
    }
  }

  function FlavorName(f: BackendFlavor): string {
    match f
    case Invalid => "Invalid"
    case OpenGL => "OpenGL"
    case OpenGL_ES => "OpenGL_ES"
    case Metal => "Metal"
    case Vulkan => "Vulkan"
  }

  /** toString(std::optional<BackendVersion>) */
  function VersionToString(v: Option<BackendVersion>): (s: string)
    ensures v.None? <==> s == "{}"
    ensures v.Some? ==> FlavorName(v.value.flavor) <= s
  {
    match v
    case None => "{}"
    case Some(b) =>
      var s := FlavorName(b.flavor) + " " + DecimalString(b.majorVersion) + " " + DecimalString(b.minorVersion);
      assert s[0] == FlavorName(b.flavor)[0];
      s
  }

  /** toString(std::optional<size_t>) */
  function IndexToString(index: Option<nat>): (s: string)
    ensures index.None? <==> s == "{}"
    ensures index.Some? ==> (forall i :: 0 <= i < |s| ==> IsDigit(s[i])) && ParseDecimal(s) == index.value
  {
    match index
    case None => "{}"
    case Some(i) =>
      DecimalRoundTrip(i);
      var s := DecimalString(i);
      assert IsDigit(s[0]);
      s
  }
}
