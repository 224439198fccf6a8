/**
 * The tone-mapping render technique: from the display's colour space, its back-buffer
 * format and the selected operator it chooses the shader defines of its kernel, and on
 * each frame it decides from the option changes whether to tear down, initialise,
 * rebuild or reuse that kernel before dispatching it over the colour target.
 *
 * DXGI colour-space and format values are symbolic: they are fields of `Dxgi`.
 * GPU objects are reduced to what the model needs: whether the program exists and the
 * defines the current kernel was compiled with.
 */
module ToneMapping {
  import opened Basics
  import CT = CapsaicinTypes

  // ---------------------------------------------------------------------------
  // Options

  /** `RenderOptions::TonemapOperator`. */
  datatype TonemapOperator =
    NoOperator | ReinhardSimple | ReinhardLuminance | ACESFast | ACESFitted | ACES | PBRNeutral | Uncharted2 | AgxFitted | Agx

  /** The enumerator's underlying `uint8_t` value. */
  function Ordinal(op: TonemapOperator): u8
  {
    match op
    case NoOperator => 0
    case ReinhardSimple => 1
    case ReinhardLuminance => 2
    case ACESFast => 3
    case ACESFitted => 4
    case ACES => 5
    case PBRNeutral => 6
    case Uncharted2 => 7
    case AgxFitted => 8
    case Agx => 9
  }

  /** `static_cast<TonemapOperator>(v)` when `v` names an enumerator. */
  function OperatorOf(v: u8): (r: Option<TonemapOperator>)
    ensures r.Some? <==> v <= 9
    ensures r.Some? ==> Ordinal(r.value) == v
  {
    if v == 0 then Some(NoOperator)
    else if v == 1 then Some(ReinhardSimple)
    else if v == 2 then Some(ReinhardLuminance)
    else if v == 3 then Some(ACESFast)
    else if v == 4 then Some(ACESFitted)
    else if v == 5 then Some(ACES)
    else if v == 6 then Some(PBRNeutral)
    else if v == 7 then Some(Uncharted2)
    else if v == 8 then Some(AgxFitted)
    else if v == 9 then Some(Agx)
    else None
  }

  /** The operator is kept as a raw `uint8_t`: values above 9 are representable. */
  datatype RenderOptions = RenderOptions(tonemapEnable: bool, tonemapOperator: u8)

  function DefaultOptions(): (o: RenderOptions)
    ensures o.tonemapEnable
    ensures OperatorOf(o.tonemapOperator) == Some(ACES)
  {
    RenderOptions(true, Ordinal(ACES))
  }

  const ENABLE_KEY: string := "tonemap_enable"
  const OPERATOR_KEY: string := "tonemap_operator"

  /** `getRenderOptions`: the technique's options under their names. */
  function GetRenderOptions(o: RenderOptions): (list: CT.RenderOptionList)
    ensures HasOptions(list)
  {
    map[ENABLE_KEY := CT.BoolOption(o.tonemapEnable), OPERATOR_KEY := CT.U8Option(o.tonemapOperator)]
  }

  /** What `convertOptions` needs from the list. */
  predicate HasOptions(list: CT.RenderOptionList)
  {
    CT.HasBool(list, ENABLE_KEY) && CT.HasU8(list, OPERATOR_KEY)
  }

  /** `convertOptions`: read the two options back out of the list. */
  function ConvertOptions(list: CT.RenderOptionList): (o: RenderOptions)
    requires HasOptions(list)
    ensures list[ENABLE_KEY] == CT.BoolOption(o.tonemapEnable)
    ensures list[OPERATOR_KEY] == CT.U8Option(o.tonemapOperator)
  {
    RenderOptions(CT.GetBool(list, ENABLE_KEY), CT.GetU8(list, OPERATOR_KEY))
  }

  // ---------------------------------------------------------------------------
  // Kernel defines

  /** The DXGI values the technique compares against. */
  datatype Dxgi = Dxgi(
    colourSpaceScRgb: int,     // DXGI_COLOR_SPACE_RGB_FULL_G10_NONE_P709
    colourSpaceHdr10: int,     // DXGI_COLOR_SPACE_RGB_FULL_G2084_NONE_P2020
    formatRgba16Float: int,    // DXGI_FORMAT_R16G16B16A16_FLOAT
    formatRgb10A2Unorm: int,   // DXGI_FORMAT_R10G10B10A2_UNORM
    formatRgba32Float: int,    // DXGI_FORMAT_R32G32B32A32_FLOAT
    formatRgb32Float: int,     // DXGI_FORMAT_R32G32B32_FLOAT
    formatRg11B10Float: int)   // DXGI_FORMAT_R11G11B10_FLOAT

  /** The two colour spaces and the two back-buffer formats tested are different values, as in DXGI. */
  predicate Distinct(dx: Dxgi)
  {
    dx.colourSpaceScRgb != dx.colourSpaceHdr10 && dx.formatRgba16Float != dx.formatRgb10A2Unorm
  }

  /** The back buffer's colour space and format, as the graphics layer reports them. */
  datatype Display = Display(colourSpace: int, format: int)

  /** The first define: the output encoding chosen from the colour space. */
  function ColourSpaceDefine(dx: Dxgi, colourSpace: int): (d: string)
    ensures d == "OUTPUT_SCRGB" || d == "OUTPUT_HDR10" || d == "OUTPUT_SRGB"
  {
    if colourSpace == dx.colourSpaceScRgb then "OUTPUT_SCRGB"
    else if colourSpace == dx.colourSpaceHdr10 then "OUTPUT_HDR10"
    else "OUTPUT_SRGB"
  }

  /** HDR output: a 16-bit float back buffer, or a 10-bit one in the HDR10 colour space. */
  predicate UsesHdr(dx: Dxgi, display: Display)
  {
    display.format == dx.formatRgba16Float
    || (display.format == dx.formatRgb10A2Unorm && display.colourSpace == dx.colourSpaceHdr10)
  }

  /** The second define: dithering depth for SDR formats, or HDR output. */
  function FormatDefine(dx: Dxgi, display: Display): (d: string)
    ensures d == "OUTPUT_HDR" <==> UsesHdr(dx, display)
    ensures d == "OUTPUT_HDR" || d == "DITHER_10" || d == "DITHER_8"
  {
    if UsesHdr(dx, display) then "OUTPUT_HDR"
    else if display.format == dx.formatRgb10A2Unorm then "DITHER_10"
    else "DITHER_8"
  }

  /** The third define: the operator; 0 and any value that names no operator select `TONEMAP_NONE`. */
  function OperatorDefine(v: u8): string
  {
    match OperatorOf(v)
    case Some(ReinhardSimple) => "TONEMAP_REINHARD"
    case Some(ReinhardLuminance) => "TONEMAP_REINHARDL"
    case Some(ACESFast) => "TONEMAP_ACESFAST"
    case Some(ACESFitted) => "TONEMAP_ACESFITTED"
    case Some(ACES) => "TONEMAP_ACES"
    case Some(PBRNeutral) => "TONEMAP_PBRNEUTRAL"
    case Some(Uncharted2) => "TONEMAP_UNCHARTED2"
    case Some(AgxFitted) => "TONEMAP_AGXFITTED"
    case Some(Agx) => "TONEMAP_AGX"
    case _ => "TONEMAP_NONE"
  }

  /** The defines the kernel is compiled with. */
  function KernelDefines(dx: Dxgi, display: Display, op: u8): seq<string>
  {
    [ColourSpaceDefine(dx, display.colourSpace), FormatDefine(dx, display), OperatorDefine(op)]
  }

  // ---------------------------------------------------------------------------
  // Dispatch planning

  /** `(dimension + threads - 1) / threads` in 32-bit unsigned arithmetic. */
  function GroupCount(dimension: u32, threads: u32): (groups: u32)
    requires threads > 0
    ensures dimension as int + threads as int - 1 < U32_MODULUS ==>
      groups as int * threads as int >= dimension as int
      && (groups as int - 1) * threads as int < dimension as int
  {
    var sum := dimension as int + threads as int - 1;
    var groups := WrapU32(sum) / threads;
    CeilingDivision(dimension as int, threads as int, sum, groups as int);
    groups
  }

  lemma CeilingDivision(dimension: int, threads: int, sum: int, groups: int)
    requires 0 <= dimension && 0 < threads && sum == dimension + threads - 1
    requires sum < U32_MODULUS ==> groups == sum / threads
    ensures sum < U32_MODULUS ==> groups * threads >= dimension && (groups - 1) * threads < dimension
  {
    if sum < U32_MODULUS {
      assert sum == groups * threads + sum % threads;
    }
  }

  /** The current debug view, and what the framework knows about it. */
  datatype DebugView = DebugView(name: string, isSharedTexture: bool, format: int)

  /** The textures read and written, and whether the debug view must be switched off. */
  datatype Textures = Textures(input: string, output: string, clearDebugView: bool)

  predicate IsFloatFormat(dx: Dxgi, format: int)
  {
    format == dx.formatRgba32Float || format == dx.formatRgb32Float
    || format == dx.formatRgba16Float || format == dx.formatRg11B10Float
  }

  /** The colour target tone-mapped when no debug view redirects the pass. */
  function ColourTarget(usesScaling: bool): string
  {
    if usesScaling then "ColorScaled" else "Color"
  }

  /** A debug view other than none and the tone-mapped output itself. */
  predicate IsOtherView(view: DebugView)
  {
    view.name != "" && view.name != "None" && view.name != "ToneMappedOutput"
  }

  /** Input and output of the tone-mapping pass, from the scaling state and the debug view. */
  function SelectTextures(dx: Dxgi, usesScaling: bool, view: DebugView): (t: Textures)
    ensures t.output == t.input || t.output == "Debug"
    ensures t.clearDebugView <==> usesScaling && view.name == "ToneMappedOutput"
    ensures view.name == "" || view.name == "None" ==>
      t.input == t.output == ColourTarget(usesScaling)
    ensures view.name == "ToneMappedOutput" ==>
      t.input == ColourTarget(usesScaling) && t.output == (if usesScaling then t.input else "Debug")
    ensures IsOtherView(view) && view.isSharedTexture && IsFloatFormat(dx, view.format) ==>
      t.input == view.name && t.output == "Debug"
    ensures IsOtherView(view) && view.isSharedTexture && !IsFloatFormat(dx, view.format) ==>
      t.input == t.output == ColourTarget(usesScaling)
    ensures IsOtherView(view) && !view.isSharedTexture ==> t.input == t.output == "Debug"
  {
    var colour := ColourTarget(usesScaling);
    if view.name == "" || view.name == "None" then Textures(colour, colour, false)
    else if view.name == "ToneMappedOutput" then
      if !usesScaling then Textures(colour, "Debug", false) else Textures(colour, colour, true)
    else if view.isSharedTexture then
      if IsFloatFormat(dx, view.format) then Textures(view.name, "Debug", false) else Textures(colour, colour, false)
    else Textures("Debug", "Debug", false)
  }

  /** The framework state a frame reads. */
  datatype Host = Host(
    hasColorScaled: bool,
    taaEnable: Option<bool>,   // present iff the framework has a `bool` option "taa_enable"
    view: DebugView,
    renderDims: Dims,
    windowDims: Dims,
    numThreads: Dims)          // the kernel's thread-group size

  /** One dispatch of the tone-mapping kernel. */
  datatype Dispatch = Dispatch(
    textures: Textures,
    bufferDims: Dims,
    groups: Dims,
    bindsBlueNoise: bool,      // the blue-noise sampler and frame index are bound for dithering
    bindsHdrParameters: bool)  // maximum luminance and exposure scale are bound

  /** The pass reads the upscaled colour when "ColorScaled" exists and the `bool` option "taa_enable" is true. */
  predicate UsesScaling(host: Host)
  {
    host.hasColorScaled && host.taaEnable == Some(true)
  }

  function PlanDispatch(dx: Dxgi, host: Host, usingDither: bool, usingHdr: bool): (d: Dispatch)
    requires host.numThreads.x > 0 && host.numThreads.y > 0
    ensures d.bufferDims == (if UsesScaling(host) then host.windowDims else host.renderDims)
    ensures d.textures == SelectTextures(dx, UsesScaling(host), host.view)
    ensures d.bindsBlueNoise == usingDither && d.bindsHdrParameters == usingHdr
  {
    var usesScaling := UsesScaling(host);
    var dims := if !usesScaling then host.renderDims else host.windowDims;
    Dispatch(SelectTextures(dx, usesScaling, host.view), dims,
      Dims(GroupCount(dims.x, host.numThreads.x), GroupCount(dims.y, host.numThreads.y)),
      usingDither, usingHdr)
  }

  // ---------------------------------------------------------------------------
  // Per-frame decision

  /** What `render` does with its resources before dispatching. */
  datatype RenderStep =
    | StoreOnly          // disabled, and it was disabled before
    | TearDown           // disabled now, enabled before
    | Initialise         // enabled now, disabled before
    | RebuildKernel      // operator or colour space changed
    | Reuse              // nothing that affects the kernel changed

  function StepOf(current: RenderOptions, next: RenderOptions, currentColourSpace: int, displayColourSpace: int): (s: RenderStep)
    ensures s == StoreOnly <==> !current.tonemapEnable && !next.tonemapEnable
    ensures s == Initialise <==> !current.tonemapEnable && next.tonemapEnable
    ensures s == TearDown <==> current.tonemapEnable && !next.tonemapEnable
    ensures s == RebuildKernel <==>
      (current.tonemapEnable && next.tonemapEnable
       && (current.tonemapOperator != next.tonemapOperator || displayColourSpace != currentColourSpace))
    ensures s == Reuse <==>
      (current.tonemapEnable && next.tonemapEnable
       && current.tonemapOperator == next.tonemapOperator && displayColourSpace == currentColourSpace)
  {
    if !next.tonemapEnable then
      if current.tonemapEnable then TearDown else StoreOnly
    else if !current.tonemapEnable then Initialise
    else if current.tonemapOperator != next.tonemapOperator || displayColourSpace != currentColourSpace then RebuildKernel
    else Reuse
  }

  datatype Kernel = NoKernel | Kernel(defines: seq<string>)

  class ToneMapper {
    var options: RenderOptions
    var colourSpace: int          // the colour space the current kernel was built for
    var usingDither: bool
    var usingHdr: bool
    var hasProgram: bool
    var kernel: Kernel

    /** `colourSpace` is left uninitialised by the technique's constructor: any value. */
    constructor (initialColourSpace: int)
      ensures options == DefaultOptions()
      ensures !usingDither && !usingHdr
      ensures !hasProgram && kernel == NoKernel
      ensures colourSpace == initialColourSpace
    {
      options := DefaultOptions();
      colourSpace := initialColourSpace;
      usingDither := false;
      usingHdr := false;
      hasProgram := false;
      kernel := NoKernel;
    }

    /** The state `initToneMapKernel` leaves behind for `display`. */
    ghost predicate KernelBuiltFor(dx: Dxgi, display: Display, compiles: bool)
      reads this
    {
      colourSpace == display.colourSpace
      && usingHdr == UsesHdr(dx, display)
      && usingDither == !usingHdr
      && kernel == (if compiles then Kernel(KernelDefines(dx, display, options.tonemapOperator)) else NoKernel)
    }

    /**
     * `initToneMapKernel`: rebuild the kernel for the display. `compiles` is whether the
     * graphics layer creates the kernel.
     */
    method InitToneMapKernel(dx: Dxgi, display: Display, compiles: bool) returns (ok: bool)
      modifies this
      ensures KernelBuiltFor(dx, display, compiles)
      ensures ok == compiles
      ensures options == old(options) && hasProgram == old(hasProgram)
    {
      kernel := NoKernel;
      colourSpace := display.colourSpace;

      var defines: seq<string> := [];
      if colourSpace == dx.colourSpaceScRgb {
        defines := defines + ["OUTPUT_SCRGB"];
      } else if colourSpace == dx.colourSpaceHdr10 {
        defines := defines + ["OUTPUT_HDR10"];
      } else {
        defines := defines + ["OUTPUT_SRGB"];
      }

      usingDither := false;
      usingHdr := false;
      if display.format == dx.formatRgba16Float {
        usingHdr := true;
      } else if display.format == dx.formatRgb10A2Unorm {
        if colourSpace != dx.colourSpaceHdr10 {
          defines := defines + ["DITHER_10"];
          usingDither := true;
        } else {
          usingHdr := true;
        }
      } else {
        defines := defines + ["DITHER_8"];
        usingDither := true;
      }

      if usingHdr {
        defines := defines + ["OUTPUT_HDR"];
      }

      defines := defines + [OperatorDefine(options.tonemapOperator)];
      kernel := if compiles then Kernel(defines) else NoKernel;
      ok := compiles;
    }

    /** `init`: read the options; when enabled, create the program and build the kernel. */
    method Init(dx: Dxgi, list: CT.RenderOptionList, display: Display, compiles: bool) returns (ok: bool)
      requires HasOptions(list)
      modifies this
      ensures options == ConvertOptions(list)
      ensures options.tonemapEnable ==> hasProgram && KernelBuiltFor(dx, display, compiles) && ok == compiles
      ensures !options.tonemapEnable ==>
        (ok && hasProgram == old(hasProgram) && kernel == old(kernel)
         && colourSpace == old(colourSpace) && usingDither == old(usingDither) && usingHdr == old(usingHdr))
    {
      options := ConvertOptions(list);
      ok := true;
      if options.tonemapEnable {
        hasProgram := true;
        ok := InitToneMapKernel(dx, display, compiles);
      }
    }

    /** `terminate`: destroy kernel and program. */
    method Terminate()
      modifies this
      ensures kernel == NoKernel && !hasProgram
      ensures options == old(options) && colourSpace == old(colourSpace)
      ensures usingDither == old(usingDither) && usingHdr == old(usingHdr)
    {
      kernel := NoKernel;
      hasProgram := false;
    }

    /**
     * `render`: apply the new options, bring the kernel up to date and return the
     * dispatch, or nothing when the technique is disabled or a rebuild failed.
     */
    method Render(dx: Dxgi, list: CT.RenderOptionList, display: Display, compiles: bool, host: Host)
      returns (d: Option<Dispatch>)
      requires HasOptions(list)
      requires host.numThreads.x > 0 && host.numThreads.y > 0
      modifies this
      ensures options == ConvertOptions(list)
      ensures var step := StepOf(old(options), options, old(colourSpace), display.colourSpace);
        && (step == StoreOnly || step == TearDown ==>
              d == None && colourSpace == old(colourSpace)
              && usingDither == old(usingDither) && usingHdr == old(usingHdr))
        && (step == StoreOnly ==> kernel == old(kernel) && hasProgram == old(hasProgram))
        && (step == TearDown ==> kernel == NoKernel && !hasProgram)
        && (step == Initialise ==> hasProgram)
        && (step == RebuildKernel ==> hasProgram == old(hasProgram))
        && (step == Initialise || step == RebuildKernel ==>
              KernelBuiltFor(dx, display, compiles)
              && d == (if compiles then Some(PlanDispatch(dx, host, usingDither, usingHdr)) else None))
        && (step == Reuse ==>
              kernel == old(kernel) && hasProgram == old(hasProgram) && colourSpace == old(colourSpace)
              && usingDither == old(usingDither) && usingHdr == old(usingHdr)
              && d == Some(PlanDispatch(dx, host, usingDither, usingHdr)))
    {
      var newOptions := ConvertOptions(list);
      if !newOptions.tonemapEnable {
        if options.tonemapEnable {
          Terminate();
        }
        options := newOptions;
        return None;
      }

      var recompile := options.tonemapOperator != newOptions.tonemapOperator;
      var reInit := !options.tonemapEnable && newOptions.tonemapEnable;
      options := newOptions;

      if reInit {
        var ok := Init(dx, list, display, compiles);
        if !ok {
          return None;
        }
      } else if recompile || display.colourSpace != colourSpace {
        var ok := InitToneMapKernel(dx, display, compiles);
        if !ok {
          return None;
        }
      }
      d := Some(PlanDispatch(dx, host, usingDither, usingHdr));
    }
  }

  // ---------------------------------------------------------------------------
  // Properties

  /** The operator ordinals run from `None` = 0 to `Agx` = 9 in declaration order. */
  lemma OperatorOrdinals(op: TonemapOperator)
    ensures Ordinal(NoOperator) == 0 && Ordinal(ACES) == 5 && Ordinal(Agx) == 9
    ensures OperatorOf(Ordinal(op)) == Some(op)
  {
  }

  /** The option list round-trips through `getRenderOptions` and `convertOptions`. */
  lemma OptionsRoundTrip(o: RenderOptions)
    ensures ConvertOptions(GetRenderOptions(o)) == o
  {
  }

  /**
   * The kernel always gets three defines: an output encoding, then exactly one of the
   * dithering or HDR defines, then one operator define; HDR and dithering exclude each other.
   */
  lemma ThreeDefines(dx: Dxgi, display: Display, op: u8)
    ensures |KernelDefines(dx, display, op)| == 3
    ensures KernelDefines(dx, display, op)[1] == "OUTPUT_HDR" <==> UsesHdr(dx, display)
    ensures KernelDefines(dx, display, op)[1] in {"DITHER_8", "DITHER_10"} <==> !UsesHdr(dx, display)
  {
  }

  /** The colour-space define for each colour space. */
  lemma ColourSpaceDefines(dx: Dxgi, colourSpace: int)
    requires Distinct(dx)
    ensures ColourSpaceDefine(dx, dx.colourSpaceScRgb) == "OUTPUT_SCRGB"
    ensures ColourSpaceDefine(dx, dx.colourSpaceHdr10) == "OUTPUT_HDR10"
    ensures colourSpace != dx.colourSpaceScRgb && colourSpace != dx.colourSpaceHdr10 ==>
      ColourSpaceDefine(dx, colourSpace) == "OUTPUT_SRGB"
  {
  }

  /**
   * Operators 1..9 select nine different defines, none of them `TONEMAP_NONE`;
   * 0 and every value above 9 select `TONEMAP_NONE`.
   */
  lemma OperatorDefines(a: u8, b: u8)
    ensures OperatorDefine(a) == "TONEMAP_NONE" <==> a == 0 || a > 9
    ensures 1 <= a <= 9 && 1 <= b <= 9 && a != b ==> OperatorDefine(a) != OperatorDefine(b)
  {
  }

  /**
   * The pass writes the "Debug" target exactly when the debug view shows its result:
   * unscaled tone-mapped output, a floating-point AOV, or a view that is not an AOV.
   * Otherwise it tone-maps the colour target in place.
   */
  lemma DebugOutputIffShown(dx: Dxgi, usesScaling: bool, view: DebugView)
    ensures var t := SelectTextures(dx, usesScaling, view);
      && (t.output == "Debug" <==>
            (view.name == "ToneMappedOutput" && !usesScaling)
            || (IsOtherView(view) && (!view.isSharedTexture || IsFloatFormat(dx, view.format))))
      && (t.output != "Debug" ==> t.input == t.output == ColourTarget(usesScaling))
  {
  }

  /** The dispatch covers the whole buffer with the fewest groups, when the sum does not wrap. */
  lemma DispatchCoversBuffer(dx: Dxgi, host: Host, usingDither: bool, usingHdr: bool)
    requires host.numThreads.x > 0 && host.numThreads.y > 0
    requires host.renderDims.x as int + host.numThreads.x as int <= U32_MODULUS
    requires host.renderDims.y as int + host.numThreads.y as int <= U32_MODULUS
    requires host.windowDims.x as int + host.numThreads.x as int <= U32_MODULUS
    requires host.windowDims.y as int + host.numThreads.y as int <= U32_MODULUS
    ensures var d := PlanDispatch(dx, host, usingDither, usingHdr);
      && d.groups.x as int * host.numThreads.x as int >= d.bufferDims.x as int
      && (d.groups.x as int - 1) * host.numThreads.x as int < d.bufferDims.x as int
      && d.groups.y as int * host.numThreads.y as int >= d.bufferDims.y as int
      && (d.groups.y as int - 1) * host.numThreads.y as int < d.bufferDims.y as int
  {
  }
}
