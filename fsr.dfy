/**
 * The FSR upscaling render technique: it picks an FSR version from the providers the
 * FidelityFX runtime reports, falls back to automatic selection when the requested one is
 * missing, decides per frame whether to re-create the upscaler and reset its history,
 * and describes textures to the runtime by translating D3D12 resource flags and states
 * into FidelityFX ones.
 *
 * D3D12, DXGI and FidelityFX constants are symbolic (the records `D3d12`, `Ffx` and
 * `Formats`). The runtime's answers (context creation, the loaded version name) are
 * parameters. Floats are kept as their 32-bit patterns.
 */
module Fsr {
  import opened Basics
  import CT = CapsaicinTypes

  // ---------------------------------------------------------------------------
  // Options

  /** `RenderOptions::FSRVersion`; the ordinals index the availability flags. */
  datatype FsrVersion = Auto | Fsr2 | Fsr3 | Fsr4

  function Ordinal(v: FsrVersion): (r: u8)
    ensures r <= 3
  {
    match v
    case Auto => 0
    case Fsr2 => 1
    case Fsr3 => 2
    case Fsr4 => 3
  }

  /** `fsr_version` is a raw `uint8_t`; `fsr_sharpen_sharpness` is a `float`, kept as its bits. */
  datatype RenderOptions = RenderOptions(taaEnable: bool, fsrVersion: u8, sharpenEnable: bool, sharpness: bv32)

  /** 0.8f */
  const DEFAULT_SHARPNESS: bv32 := 0x3F4C_CCCD

  function DefaultOptions(): (o: RenderOptions)
    ensures o.taaEnable && o.sharpenEnable
    ensures o.fsrVersion == Ordinal(Auto)
    ensures o.sharpness == DEFAULT_SHARPNESS
  {
    RenderOptions(true, Ordinal(Auto), true, DEFAULT_SHARPNESS)
  }

  const TAA_KEY: string := "taa_enable"
  const VERSION_KEY: string := "fsr_version"
  const SHARPEN_KEY: string := "fsr_sharpen_enable"
  const SHARPNESS_KEY: string := "fsr_sharpen_sharpness"

  /** `getRenderOptions`. */
  function GetRenderOptions(o: RenderOptions): (list: CT.RenderOptionList)
    ensures HasOptions(list)
  {
    map[TAA_KEY := CT.BoolOption(o.taaEnable), VERSION_KEY := CT.U8Option(o.fsrVersion),
        SHARPEN_KEY := CT.BoolOption(o.sharpenEnable), SHARPNESS_KEY := CT.FloatOption(o.sharpness)]
  }

  predicate HasOptions(list: CT.RenderOptionList)
  {
    CT.HasBool(list, TAA_KEY) && CT.HasU8(list, VERSION_KEY)
    && CT.HasBool(list, SHARPEN_KEY) && CT.HasFloat(list, SHARPNESS_KEY)
  }

  /** `convertOptions`: read the options and clamp the version to `FSR4`. */
  function ConvertOptions(list: CT.RenderOptionList): (o: RenderOptions)
    requires HasOptions(list)
    ensures o.fsrVersion <= Ordinal(Fsr4)
    ensures CT.GetU8(list, VERSION_KEY) <= Ordinal(Fsr4) ==> o.fsrVersion == CT.GetU8(list, VERSION_KEY)
    ensures CT.GetU8(list, VERSION_KEY) > Ordinal(Fsr4) ==> o.fsrVersion == Ordinal(Fsr4)
    ensures list[TAA_KEY] == CT.BoolOption(o.taaEnable)
    ensures list[SHARPEN_KEY] == CT.BoolOption(o.sharpenEnable)
    ensures list[SHARPNESS_KEY] == CT.FloatOption(o.sharpness)
  {
    RenderOptions(CT.GetBool(list, TAA_KEY), MinU8(CT.GetU8(list, VERSION_KEY), Ordinal(Fsr4)),
      CT.GetBool(list, SHARPEN_KEY), CT.GetFloat(list, SHARPNESS_KEY))
  }

  // ---------------------------------------------------------------------------
  // Providers and version availability

  /** One upscaler provider reported by the runtime: its version name and id. */
  datatype Provider = Provider(name: string, id: nat)

  /** `name[0]` of a C string: the terminating NUL when the name is empty. */
  function FirstChar(name: string): char
  {
    if |name| == 0 then '\0' else name[0]
  }

  /** `versionChars`: the leading character of FSR2, FSR3 and FSR4 provider names. */
  const VERSION_CHARS: seq<char> := ['2', '3', '4']

  /** Some provider's name starts with `c`. */
  predicate Offers(providers: seq<Provider>, c: char)
  {
    exists i :: 0 <= i < |providers| && FirstChar(providers[i].name) == c
  }

  /** The position `ranges::find_if` returns: the first provider starting with `c`, or the end. */
  function FirstOffering(providers: seq<Provider>, c: char): (pos: nat)
    ensures pos <= |providers|
    ensures pos < |providers| ==> FirstChar(providers[pos].name) == c
    ensures forall i :: 0 <= i < pos ==> FirstChar(providers[i].name) != c
    decreases |providers|
  {
    if |providers| == 0 then 0
    else if FirstChar(providers[0].name) == c then 0
    else 1 + FirstOffering(providers[1..], c)
  }

  /** The search as the source runs it. */
  method FindProvider(providers: seq<Provider>, c: char) returns (pos: nat)
    ensures pos == FirstOffering(providers, c)
  {
    pos := 0;
    while pos < |providers| && FirstChar(providers[pos].name) != c
      invariant pos <= |providers|
      invariant FirstOffering(providers, c) == pos + FirstOffering(providers[pos..], c)
    {
      assert providers[pos..][1..] == providers[pos + 1..];
      pos := pos + 1;
    }
  }

  /** The availability flags `init` derives from a provider list: Auto, FSR2, FSR3, FSR4. */
  function Availability(providers: seq<Provider>): (flags: seq<bool>)
    ensures |flags| == 4
  {
    var fsr2, fsr3, fsr4 := Offers(providers, '2'), Offers(providers, '3'), Offers(providers, '4');
    [fsr2 || fsr3 || fsr4, fsr2, fsr3, fsr4]
  }

  /** The version kept after `init`: the request when it is available, else `Auto`. */
  function EffectiveVersion(requested: u8, flags: seq<bool>): (v: u8)
    requires requested <= Ordinal(Fsr4) && |flags| == 4
    ensures v == requested || v == Ordinal(Auto)
    ensures v != Ordinal(Auto) ==> flags[v]
    ensures requested == Ordinal(Auto) || flags[requested] ==> v == requested
  {
    if requested != Ordinal(Auto) && !flags[requested] then Ordinal(Auto) else requested
  }

  /** The version override the context is created with: the id of the first matching provider. */
  function OverrideFor(providers: seq<Provider>, version: u8): Option<nat>
    requires version <= Ordinal(Fsr4)
  {
    if version == Ordinal(Auto) then None
    else
      var pos := FirstOffering(providers, VERSION_CHARS[version - 1]);
      if pos < |providers| then Some(providers[pos].id) else None
  }

  // ---------------------------------------------------------------------------
  // Per-frame decisions

  /** The framework state a frame reads. */
  datatype FrameInfo = FrameInfo(
    cameraChanged: bool,
    sceneUpdated: bool,
    environmentMapUpdated: bool,
    renderDimsUpdated: bool,
    windowDimsUpdated: bool,
    frameIndex: nat,
    hasColorScaled: bool,
    scaleBelowOne: bool,        // `getRenderDimensionsScale() < 1.0F`
    renderDims: Dims,
    windowDims: Dims)

  /** The upscaler is re-created when TAA was off or the version changed. */
  predicate ReInit(current: RenderOptions, next: RenderOptions)
  {
    !current.taaEnable || next.fsrVersion != current.fsrVersion
  }

  /** The history reset decided before any resize is considered. */
  predicate HistoryReset(frame: FrameInfo, reInit: bool)
  {
    frame.cameraChanged || frame.sceneUpdated || frame.environmentMapUpdated || reInit
  }

  /** A resize or the first frame: reset the history and set the camera jitter phase. */
  predicate Resized(frame: FrameInfo)
  {
    frame.renderDimsUpdated || frame.windowDimsUpdated || frame.frameIndex == 0
  }

  /** One dispatch of the upscaler, without the float-valued parameters. */
  datatype Upscale = Upscale(
    reset: bool,
    jitterPhaseSet: bool,
    usesScaling: bool,
    colourWriteable: bool,      // the colour input is requested in a writeable state
    renderSize: Dims,
    upscaleSize: Dims,
    sharpen: bool,
    sharpness: bv32,
    exposureBound: bool)

  /** FSR2 is given twice the render size, in 32-bit unsigned arithmetic. */
  function RenderSize(version: u8, dims: Dims): Dims
  {
    if version == Ordinal(Fsr2) then Dims(WrapU32(dims.x as int * 2), WrapU32(dims.y as int * 2)) else dims
  }

  function PlanUpscale(o: RenderOptions, frame: FrameInfo, reset: bool, jitterPhaseSet: bool, exposure: bool): (u: Upscale)
    ensures u.reset == reset && u.jitterPhaseSet == jitterPhaseSet && u.exposureBound == exposure
    ensures u.usesScaling <==> frame.hasColorScaled && frame.scaleBelowOne
    ensures u.colourWriteable <==> !u.usesScaling
    ensures u.sharpen == o.sharpenEnable && u.sharpness == o.sharpness
  {
    var usesScaling := frame.hasColorScaled && frame.scaleBelowOne;
    Upscale(reset, jitterPhaseSet, usesScaling, !usesScaling,
      RenderSize(o.fsrVersion, frame.renderDims),
      if usesScaling then frame.windowDims else frame.renderDims,
      o.sharpenEnable, o.sharpness, exposure)
  }

  // ---------------------------------------------------------------------------
  // The technique's state

  /** `upscale_context_`: null, or a context created with an optional version override. */
  datatype Context = NoContext | Context(versionOverride: Option<nat>)

  /** Initialisation succeeds when providers exist, the context is created and reports its version. */
  predicate InitSucceeds(providers: seq<Provider>, createOk: bool, loadedVersion: Option<string>)
  {
    |providers| > 0 && createOk && loadedVersion.Some?
  }

  class Fsr {
    var options: RenderOptions
    var upscaleContext: Context
    var version: string
    var exposure: bool                  // the 1x1 exposure texture exists
    const availableVersions: array<bool>
    /** The providers the installed FidelityFX runtime reports; fixed for the process. */
    const providers: seq<Provider>

    /** Every availability flag is backed by a provider, and Auto by one of the versions. */
    ghost predicate Valid()
      reads this, availableVersions
    {
      availableVersions.Length == 4
      && options.fsrVersion <= Ordinal(Fsr4)
      && (availableVersions[1] ==> Offers(providers, '2'))
      && (availableVersions[2] ==> Offers(providers, '3'))
      && (availableVersions[3] ==> Offers(providers, '4'))
      && (availableVersions[0] ==> availableVersions[1] || availableVersions[2] || availableVersions[3])
    }

    constructor (runtimeProviders: seq<Provider>)
      ensures Valid()
      ensures fresh(availableVersions)
      ensures availableVersions[..] == [false, false, false, false]
      ensures options == DefaultOptions() && upscaleContext == NoContext
      ensures version == "" && !exposure && providers == runtimeProviders
    {
      options := DefaultOptions();
      upscaleContext := NoContext;
      version := "";
      exposure := false;
      availableVersions := new bool[4](_ => false);
      providers := runtimeProviders;
    }

    /** The state a successful or failed `init` leaves when TAA is on. */
    ghost predicate Initialised(o: RenderOptions, createOk: bool, loadedVersion: Option<string>, oldContext: Context, oldVersion: string)
      reads this, availableVersions
    {
      availableVersions.Length == 4
      && o.fsrVersion <= Ordinal(Fsr4)
      && if |providers| == 0 then
           availableVersions[..] == [false, false, false, false]
           && options == o && upscaleContext == oldContext && version == oldVersion
         else
           availableVersions[..] == Availability(providers)
           && options == o.(fsrVersion := EffectiveVersion(o.fsrVersion, Availability(providers)))
           && (options.fsrVersion != Ordinal(Auto) ==>
                 FirstOffering(providers, VERSION_CHARS[options.fsrVersion - 1]) < |providers|)
           && var ok := InitSucceeds(providers, createOk, loadedVersion);
              upscaleContext == (if ok then Context(OverrideFor(providers, options.fsrVersion)) else NoContext)
              && version == (if ok then loadedVersion.value else oldVersion)
    }

    /**
     * `init`. `hasExposureBuffer` is whether the framework has the shared "Exposure" buffer,
     * `createOk` whether the runtime creates the context, `loadedVersion` the version name
     * it then reports.
     */
    method Init(list: CT.RenderOptionList, hasExposureBuffer: bool, createOk: bool, loadedVersion: Option<string>)
      returns (ok: bool)
      requires Valid() && HasOptions(list)
      modifies this, availableVersions
      ensures Valid()
      ensures var o := ConvertOptions(list);
        if !o.taaEnable then
          ok && options == o && availableVersions[..] == old(availableVersions[..])
          && upscaleContext == old(upscaleContext) && exposure == old(exposure) && version == old(version)
        else
          ok == InitSucceeds(providers, createOk, loadedVersion)
          && exposure == (old(exposure) || hasExposureBuffer)
          && Initialised(o, createOk, loadedVersion, old(upscaleContext), old(version))
    {
      options := ConvertOptions(list);
      if !options.taaEnable {
        return true;
      }
      if hasExposureBuffer {
        exposure := true;
      }

      if |providers| == 0 {
        availableVersions[0] := false;
        availableVersions[1] := false;
        availableVersions[2] := false;
        availableVersions[3] := false;
        return false;
      }

      QueryAvailability();
      ok := CreateContext(createOk, loadedVersion);
    }

    /** The availability part of `init`: set the flag of every version some provider offers. */
    method QueryAvailability()
      requires Valid() && |providers| > 0
      modifies availableVersions
      ensures Valid()
      ensures availableVersions[..] == Availability(providers)
    {
      ghost var before := availableVersions[..];
      MarkIfOffered(Ordinal(Fsr2) as nat, VERSION_CHARS[0]);
      MarkIfOffered(Ordinal(Fsr3) as nat, VERSION_CHARS[1]);
      MarkIfOffered(Ordinal(Fsr4) as nat, VERSION_CHARS[2]);
      assert availableVersions[1] == Offers(providers, '2') by { assert before[1] ==> Offers(providers, '2'); }
      assert availableVersions[2] == Offers(providers, '3') by { assert before[2] ==> Offers(providers, '3'); }
      assert availableVersions[3] == Offers(providers, '4') by { assert before[3] ==> Offers(providers, '4'); }
      if availableVersions[1] || availableVersions[2] || availableVersions[3] {
        availableVersions[0] := true;
      }
      assert availableVersions[..] == Availability(providers);
    }

    /** One `find_if` of `init`: set flag `k` when some provider's name starts with `c`. */
    method MarkIfOffered(k: nat, c: char)
      requires k < availableVersions.Length
      modifies availableVersions
      ensures availableVersions[k] == (old(availableVersions[k]) || Offers(providers, c))
      ensures forall j :: 0 <= j < availableVersions.Length && j != k ==> availableVersions[j] == old(availableVersions[j])
    {
      var pos := FindProvider(providers, c);
      OffersIffFound(providers, c);
      if pos < |providers| {
        availableVersions[k] := true;
      }
    }

    /**
     * The creation part of `init`: fall back to Auto when the requested version is not
     * available, create the context (with the matching provider's id as override when a
     * version is requested) and read back the loaded version's name.
     */
    method CreateContext(createOk: bool, loadedVersion: Option<string>) returns (ok: bool)
      requires availableVersions.Length == 4 && options.fsrVersion <= Ordinal(Fsr4) && |providers| > 0
      requires availableVersions[..] == Availability(providers)
      modifies this
      ensures Valid()
      ensures exposure == old(exposure)
      ensures options == old(options).(fsrVersion := EffectiveVersion(old(options).fsrVersion, Availability(providers)))
      ensures options.fsrVersion != Ordinal(Auto) ==>
        FirstOffering(providers, VERSION_CHARS[options.fsrVersion - 1]) < |providers|
      ensures ok == (createOk && loadedVersion.Some?)
      ensures upscaleContext == (if ok then Context(OverrideFor(providers, options.fsrVersion)) else NoContext)
      ensures version == (if ok then loadedVersion.value else old(version))
    {
      ghost var flags := Availability(providers);
      var requested := options.fsrVersion;
      assert availableVersions[requested] == flags[requested];
      if requested != Ordinal(Auto) {
        if !availableVersions[requested] {
          options := options.(fsrVersion := Ordinal(Auto));
        } else {
          var c := VERSION_CHARS[requested - 1];
          var versionPos := FindProvider(providers, c);
          assert Offers(providers, c) by {
            assert flags[requested] == Offers(providers, c);
          }
          OffersIffFound(providers, c);
          ok := CreateAndQuery(Some(providers[versionPos].id), createOk, loadedVersion);
          return;
        }
      }
      ok := CreateAndQuery(None, createOk, loadedVersion);
    }

    /**
     * Create the context (with a version override when one is given) and, once created,
     * read back the name of the version the runtime loaded; a missing name destroys it.
     */
    method CreateAndQuery(versionOverride: Option<nat>, createOk: bool, loadedVersion: Option<string>) returns (ok: bool)
      modifies this
      ensures ok == (createOk && loadedVersion.Some?)
      ensures upscaleContext == (if ok then Context(versionOverride) else NoContext)
      ensures version == (if ok then loadedVersion.value else old(version))
      ensures options == old(options) && exposure == old(exposure)
    {
      if !createOk {
        upscaleContext := NoContext;
        return false;
      }
      upscaleContext := Context(versionOverride);
      if loadedVersion.Some? {
        version := loadedVersion.value;
        ok := true;
      } else {
        upscaleContext := NoContext;
        ok := false;
      }
    }

    /** `terminate`: destroy the context and the exposure texture. */
    method Terminate()
      modifies this
      ensures upscaleContext == NoContext && !exposure
      ensures options == old(options) && version == old(version)
    {
      upscaleContext := NoContext;
      exposure := false;
    }

    /**
     * `render`: apply the options, re-create the upscaler when needed, and return the
     * dispatch, or nothing when TAA is off or re-creation failed.
     */
    method Render(list: CT.RenderOptionList, hasExposureBuffer: bool, createOk: bool, loadedVersion: Option<string>,
                  frame: FrameInfo)
      returns (d: Option<Upscale>)
      requires Valid() && HasOptions(list)
      modifies this, availableVersions
      ensures Valid()
      ensures var n := ConvertOptions(list);
        && (!n.taaEnable ==>
              d == None && options == n && version == old(version)
              && availableVersions[..] == old(availableVersions[..])
              && if old(options.taaEnable) then upscaleContext == NoContext && !exposure
                 else upscaleContext == old(upscaleContext) && exposure == old(exposure))
        && (n.taaEnable && !ReInit(old(options), n) ==>
              options == n && version == old(version) && availableVersions[..] == old(availableVersions[..])
              && upscaleContext == old(upscaleContext) && exposure == old(exposure)
              && d == Some(PlanUpscale(n, frame, HistoryReset(frame, false) || Resized(frame), Resized(frame), exposure)))
        && (n.taaEnable && ReInit(old(options), n) ==>
              exposure == ((old(exposure) && old(upscaleContext) == NoContext) || hasExposureBuffer)
              && Initialised(n, createOk, loadedVersion, NoContext, old(version))
              && d == (if InitSucceeds(providers, createOk, loadedVersion)
                       then Some(PlanUpscale(options, frame, true, false, exposure)) else None))
    {
      var n := ConvertOptions(list);
      if !n.taaEnable {
        if options.taaEnable {
          Terminate();
        }
        options := n;
        return None;
      }

      var reInit := ReInit(options, n);
      var cameraReset := HistoryReset(frame, reInit);
      var jitterPhaseSet := false;
      options := n;

      if reInit {
        if upscaleContext != NoContext {
          Terminate();
        }
        var ok := Init(list, hasExposureBuffer, createOk, loadedVersion);
        if !ok {
          return None;
        }
      } else if Resized(frame) {
        cameraReset := true;
        jitterPhaseSet := true;
      }

      d := Some(PlanUpscale(options, frame, cameraReset, jitterPhaseSet, exposure));
    }
  }

  // ---------------------------------------------------------------------------
  // Properties

  /** Auto = 0 to FSR4 = 3, so every version indexes the four availability flags. */
  lemma VersionOrdinals(v: FsrVersion)
    ensures Ordinal(Auto) == 0 && Ordinal(Fsr2) == 1 && Ordinal(Fsr3) == 2 && Ordinal(Fsr4) == 3
    ensures Ordinal(v) < 4
  {
  }

  /** Options with an in-range version round-trip; out-of-range versions are clamped to FSR4. */
  lemma OptionsRoundTrip(o: RenderOptions)
    ensures o.fsrVersion <= 3 ==> ConvertOptions(GetRenderOptions(o)) == o
    ensures o.fsrVersion > 3 ==> ConvertOptions(GetRenderOptions(o)) == o.(fsrVersion := 3)
  {
  }

  /** The search finds a provider exactly when one is offered. */
  lemma OffersIffFound(providers: seq<Provider>, c: char)
    ensures Offers(providers, c) <==> FirstOffering(providers, c) < |providers|
  {
  }

  /** With no providers nothing is available. */
  lemma NoProvidersNothingAvailable()
    ensures Availability([]) == [false, false, false, false]
  {
  }

  /** Auto is available exactly when one of the three versions is. */
  lemma AutoAvailableIffAnyVersion(providers: seq<Provider>)
    ensures Availability(providers)[0] <==>
      exists i :: 0 <= i < |providers| && FirstChar(providers[i].name) in VERSION_CHARS
  {
    var flags := Availability(providers);
    if flags[0] {
      var c :| c in VERSION_CHARS && Offers(providers, c);
      var i :| 0 <= i < |providers| && FirstChar(providers[i].name) == c;
      assert FirstChar(providers[i].name) in VERSION_CHARS;
    }
    if exists i :: 0 <= i < |providers| && FirstChar(providers[i].name) in VERSION_CHARS {
      var i :| 0 <= i < |providers| && FirstChar(providers[i].name) in VERSION_CHARS;
      var c := FirstChar(providers[i].name);
      assert Offers(providers, c);
    }
  }

  /**
   * A version that stays requested after `init` is offered, so its override id is taken
   * from a provider inside the list.
   */
  lemma {:induction false} OverrideLandsInList(providers: seq<Provider>, requested: u8)
    requires requested <= 3
    ensures var v := EffectiveVersion(requested, Availability(providers));
      v != Ordinal(Auto) ==>
        FirstOffering(providers, VERSION_CHARS[v - 1]) < |providers|
        && OverrideFor(providers, v) == Some(providers[FirstOffering(providers, VERSION_CHARS[v - 1])].id)
  {
    var v := EffectiveVersion(requested, Availability(providers));
    if v != Ordinal(Auto) {
      OffersIffFound(providers, VERSION_CHARS[v - 1]);
    }
  }

  /**
   * An unavailable request falls back to Auto in the stored options while the option
   * list still holds the request, so the next frame sees a version change and
   * re-initialises again.
   */
  lemma FallbackReinitialisesNextFrame(list: CT.RenderOptionList, providers: seq<Provider>)
    requires HasOptions(list)
    requires ConvertOptions(list).taaEnable
    requires ConvertOptions(list).fsrVersion != Ordinal(Auto)
    requires !Availability(providers)[ConvertOptions(list).fsrVersion]
    ensures var o := ConvertOptions(list);
      var stored := o.(fsrVersion := EffectiveVersion(o.fsrVersion, Availability(providers)));
      stored.fsrVersion == Ordinal(Auto) && ReInit(stored, ConvertOptions(list))
  {
  }

  /** Re-initialising always resets the upscaler's history. */
  lemma ReInitResetsHistory(current: RenderOptions, next: RenderOptions, frame: FrameInfo)
    ensures ReInit(current, next) ==> HistoryReset(frame, ReInit(current, next))
    ensures !current.taaEnable ==> ReInit(current, next)
    ensures current.taaEnable && next.fsrVersion == current.fsrVersion ==> !ReInit(current, next)
  {
  }

  /**
   * Only FSR2 doubles the render size (both axes, when they fit in 32 bits); the upscale
   * size is the window size when scaling and the render size otherwise.
   */
  lemma UpscaleSizes(o: RenderOptions, frame: FrameInfo, reset: bool, jitter: bool, exposure: bool)
    ensures var u := PlanUpscale(o, frame, reset, jitter, exposure);
      && (o.fsrVersion != Ordinal(Fsr2) ==> u.renderSize == frame.renderDims)
      && (o.fsrVersion == Ordinal(Fsr2) && frame.renderDims.x < 0x8000_0000 && frame.renderDims.y < 0x8000_0000 ==>
            u.renderSize.x == 2 * frame.renderDims.x && u.renderSize.y == 2 * frame.renderDims.y)
      && u.upscaleSize == (if u.usesScaling then frame.windowDims else frame.renderDims)
  {
  }

}
